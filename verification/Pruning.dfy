/** `prune_inventory` in place: its checks, the protocol it then runs, and the guarantees the protocol gives to
    every directory the checks accept. */
module Pruning {
  import opened Basics
  import opened Numerals
  import opened Ordering
  import opened Timestamps
  import opened Moments
  import opened Inventory
  import opened BackupDirectory
  import opened PruneJournals
  import opened Relocation
  import opened Recovery
  import opened CrashSafety
  import opened PruneProtocol
  import opened CrashTheorems
  import opened Maintenance

  datatype PruneRequest = PruneRequest(operationId: string, cutoff: string, expectedDigest: Digest, paths: seq<string>)

  datatype PruneReply = PruneReply(operationId: string, deleted: seq<string>, digest: Digest)

  /** The requests the field validators let through. */
  ghost predicate ValidRequest(q: PruneRequest) {
    && OperationId(q.operationId) && UtcText(q.cutoff) && HexDigest(q.expectedDigest)
    && StrictlySorted(q.paths, Less) && forall p :: p in q.paths ==> ArtifactName(p)
  }

  /** What a prune demands of the recovered directory. */
  ghost predicate Accepted(d: Directory, q: PruneRequest)
    requires UtcText(q.cutoff)
  {
    InventoryOk(d) && ManifestDigest(Listed(d)) == q.expectedDigest && q.paths == EligiblePaths(Listed(d), q.cutoff)
  }

  function SnapshotsOf(d: Directory, s: seq<Artifact>): map<string, Snapshot> {
    map p | p in d && d[p].Regular? && p in PathsOf(s) :: SnapshotOf(d[p])
  }

  function RetainedIn(d: Directory, paths: seq<string>): seq<Artifact> { Retained(Listed(d), SetOf(paths)) }

  // ----- A root with one artifact -----

  function OneArtifact(lock: Entry, manifest: Entry, a: Artifact, file: Entry): Directory {
    map[LOCK_NAME := lock, INVENTORY_NAME := manifest, a.path := file]
  }

  lemma AloneIsInventory(lock: Entry, manifest: Entry, a: Artifact, file: Entry)
    requires ValidArtifact(a) && file.Regular? && a.size == Size(file.content) && a.sha256 == Sha256(file.content)
    requires manifest.Regular? && manifest.content.Manifest? && manifest.content.artifacts == [a]
    ensures var d := OneArtifact(lock, manifest, a, file); InventoryOk(d) && Listed(d) == [a]
  {
    hide UtcText, CanonicalUuid, HexDigest;
    var d := OneArtifact(lock, manifest, a, file);
    assert INVENTORY_NAME[0] == 'm' && LOCK_NAME[0] == '.';
    assert d[a.path] == file && d[INVENTORY_NAME] == manifest;
    assert PathsOf([a]) == {a.path} by { assert [a][0] == a; }
    assert d.Keys == {LOCK_NAME, INVENTORY_NAME} + {a.path};
    assert Canonical([a]) == [a];
  }

  lemma AloneIsEligible(a: Artifact, cutoff: string)
    requires UtcText(a.createdAt) && UtcText(cutoff)
    ensures EligiblePaths([a], cutoff) == [a.path] <==> Instant(a.createdAt) <= Instant(cutoff)
  {
    hide UtcText, Instant;
    assert [a][1..] == [] && DuePaths([], cutoff) == [];
    assert DuePaths([a], cutoff) == if Due(a, cutoff) then [a.path] else [];
    assert Sorted([a.path], Less) == [a.path] by { assert [a.path][1..] == []; }
  }

  /** A backup that stands alone can be pruned exactly if the cutoff, to the microsecond, is not before its time. */
  lemma AloneIsPrunable(lock: Entry, manifest: Entry, a: Artifact, file: Entry, operationId: string, cutoff: string)
    requires ValidArtifact(a) && file.Regular? && a.size == Size(file.content) && a.sha256 == Sha256(file.content)
    requires manifest.Regular? && manifest.content.Manifest? && manifest.content.artifacts == [a]
    requires OperationId(operationId) && UtcText(cutoff)
    ensures var d, q := OneArtifact(lock, manifest, a, file), PruneRequest(operationId, cutoff, ManifestDigest([a]), [a.path]);
            ValidRequest(q) && (Accepted(d, q) <==> Instant(a.createdAt) <= Instant(cutoff))
  {
    hide UtcText, ArtifactName, CanonicalUuid, OperationId, Instant, ManifestPayload, EligiblePaths, InventoryOk, Listed, OneArtifact;
    AloneIsInventory(lock, manifest, a, file);
    AloneIsEligible(a, cutoff);
  }

  /** The staged manifest file: some new file with the canonical text of what is retained. */
  function StagedFile(d: Directory, paths: seq<string>, w: Partial): Entry
    requires w.manifest.Regular?
  {
    w.manifest.(content := ManifestPayload(RetainedIn(d, paths)))
  }

  lemma NothingEligible(cutoff: string)
    requires UtcText(cutoff)
    ensures EligiblePaths([], cutoff) == []
  {
  }

  /** A validated directory with a manifest: its listing is valid, canonical, matched and complete. */
  lemma ListingOk(d: Directory)
    requires InventoryOk(d) && ReadsManifest(d)
    ensures ValidManifest(Listed(d)) && Canonical(Listed(d)) == Listed(d)
    ensures AllMatch(d, Listed(d)) && d.Keys == {LOCK_NAME, INVENTORY_NAME} + PathsOf(Listed(d))
  {
    var data := d[INVENTORY_NAME].content.artifacts;
    assert AllMatch(d, data) && ValidManifest(data);
    CanonicalProperties(data);
    hide ValidManifest, Canonical, Matches, InventoryOk, LOCK_NAME, INVENTORY_NAME, PathsOf;
  }

  lemma AcceptedReads(d: Directory, q: PruneRequest)
    requires UtcText(q.cutoff) && Accepted(d, q) && q.paths != []
    ensures InventoryOk(d) && ReadsManifest(d)
  {
    NothingEligible(q.cutoff);
    hide InventoryOk, EligiblePaths, ManifestDigest;
  }

  lemma MatchedSnapshots(d: Directory, s: seq<Artifact>)
    requires AllMatch(d, s)
    ensures SnapshotsOf(d, s).Keys == PathsOf(s)
    ensures forall k :: 0 <= k < |s| ==> s[k].path in SnapshotsOf(d, s) && Bound(d, s[k].path, SnapshotsOf(d, s)[s[k].path])
                                         && SnapshotRecord(SnapshotsOf(d, s)[s[k].path])
                                         && SnapshotsOf(d, s)[s[k].path].size == s[k].size && SnapshotsOf(d, s)[s[k].path].sha256 == s[k].sha256
  {
    hide Size;
    forall k | 0 <= k < |s| ensures Matches(d, s[k]) && s[k].path in PathsOf(s) {}
    forall p | p in PathsOf(s) ensures p in SnapshotsOf(d, s) {
      var i :| 0 <= i < |s| && s[i].path == p;
      assert Matches(d, s[i]);
    }
  }

  ghost function JournalOf(d: Directory, q: PruneRequest, root: Identity, lock: Identity, w: Partial): PruneJournal
    requires UtcText(q.cutoff) && Accepted(d, q) && q.paths != [] && w.manifest.Regular?
  {
    AcceptedReads(d, q);
    ListingOk(d);
    MatchedSnapshots(d, Listed(d));
    JournalFor(q.operationId, q.cutoff, root, lock, Listed(d), q.paths, SnapshotOf(d[INVENTORY_NAME]),
               SnapshotOf(StagedFile(d, q.paths, w)), SnapshotsOf(d, Listed(d)))
  }

  /** The journal a prune writes validates. */
  lemma JournalOfOk(d: Directory, q: PruneRequest, root: Identity, lock: Identity, w: Partial)
    requires ValidRequest(q) && Accepted(d, q) && q.paths != [] && w.manifest.Regular?
    requires IdentityRecord(root) && IdentityRecord(lock)
    ensures JournalOk(JournalOf(d, q, root, lock, w), root, lock)
  {
    AcceptedReads(d, q);
    ListingOk(d);
    MatchedSnapshots(d, Listed(d));
    RetainedProperties(Listed(d), SetOf(q.paths));
    StagedRecord(d, q.paths, w);
    var s, t, f, g := Listed(d), SnapshotsOf(d, Listed(d)), SnapshotOf(d[INVENTORY_NAME]), SnapshotOf(StagedFile(d, q.paths, w));
    assert SnapshotRecord(f);
    assert JournalOf(d, q, root, lock, w) == JournalFor(q.operationId, q.cutoff, root, lock, s, q.paths, f, g, t);
    assert OperationId(q.operationId) && UtcText(q.cutoff) && q.paths == EligiblePaths(s, q.cutoff);
    hide *;
    PrintedJournalValidates(q.operationId, q.cutoff, root, lock, s, q.paths, f, g, t);
  }

  lemma StagedRecord(d: Directory, paths: seq<string>, w: Partial)
    requires w.manifest.Regular?
    ensures var g := SnapshotOf(StagedFile(d, paths, w));
            SnapshotRecord(g) && g.size == Size(ManifestPayload(Retained(Listed(d), SetOf(paths)))) && g.sha256 == ManifestDigest(Retained(Listed(d), SetOf(paths)))
  {
    hide Size, Canonical, Retained, Listed;
  }

  /** The prune that an accepted request starts. */
  ghost function CommitFor(d: Directory, q: PruneRequest, root: Identity, lock: Identity, w: Partial): Commit
    requires ValidRequest(q) && Accepted(d, q) && q.paths != [] && w.manifest.Regular? && w.journal.Regular?
    requires IdentityRecord(root) && IdentityRecord(lock)
  {
    var j := JournalOf(d, q, root, lock, w);
    JournalOfOk(d, q, root, lock, w);
    JournalHasPlan(j, root, lock);
    Commit(d, PlanOf(j), StagedFile(d, q.paths, w), w.journal.(content := Journal(j)))
  }

  /** Everything the crash theorems ask of a prune holds of every prune the checks let through. */
  lemma CommitForOk(d: Directory, q: PruneRequest, root: Identity, lock: Identity, w: Partial)
    requires ValidRequest(q) && Accepted(d, q) && q.paths != [] && w.manifest.Regular? && w.journal.Regular?
    requires IdentityRecord(root) && IdentityRecord(lock)
    ensures var c := CommitFor(d, q, root, lock, w);
            CommitOk(c) && RecordOk(c, root, lock) && PartialOk(c, w) && c.original == d && c.plan.paths == q.paths
            && c.plan.before == Listed(d) && c.plan.after == RetainedIn(d, q.paths)
  {
    var c, j := CommitFor(d, q, root, lock, w), JournalOf(d, q, root, lock, w);
    AcceptedReads(d, q);
    JournalOfOk(d, q, root, lock, w);
    JournalHasPlan(j, root, lock);
    JournalOfFields(d, q, root, lock, w);
    assert c == Commit(d, PlanOf(j), StagedFile(d, q.paths, w), w.journal.(content := Journal(j)));
    hide *;
    CommitFrom(c, j, w, q.paths);
    CommitRecord(c, j, root, lock);
  }

  lemma JournalOfFields(d: Directory, q: PruneRequest, root: Identity, lock: Identity, w: Partial)
    requires ValidRequest(q) && Accepted(d, q) && q.paths != [] && w.manifest.Regular?
    ensures var j := JournalOf(d, q, root, lock, w);
            && ReadsManifest(d) && SnapshotsOf(d, Listed(d)).Keys == PathsOf(Listed(d))
            && j.oldManifest == Listed(d) && j.newManifest == RetainedIn(d, q.paths) && j.paths == q.paths
            && Canonical(j.newManifest) == j.newManifest
            && j.oldFile == SnapshotOf(d[INVENTORY_NAME]) && j.newFile == SnapshotOf(StagedFile(d, q.paths, w))
            && j.bindings == BindingsFor(j.oldManifest, SnapshotsOf(d, Listed(d)))
  {
    AcceptedReads(d, q);
    ListingOk(d);
    MatchedSnapshots(d, Listed(d));
    RetainedProperties(Listed(d), SetOf(q.paths));
    hide Canonical, Retained, EligiblePaths, ValidManifest, UtcText, OperationId, ValidRequest, SnapshotOf, InventoryOk, Accepted, Listed, LOCK_NAME, INVENTORY_NAME, ManifestDigest;
  }

  lemma CommitRecord(c: Commit, j: PruneJournal, root: Identity, lock: Identity)
    requires c.record.Regular? && c.record.content == Journal(j) && JournalOk(j, root, lock) && Describes(c.plan, j)
    ensures RecordOk(c, root, lock)
  {
  }

  lemma CommitFrom(c: Commit, j: PruneJournal, w: Partial, paths: seq<string>)
    requires InventoryOk(c.original) && ReadsManifest(c.original) && PlanOk(c.plan) && Describes(c.plan, j)
    requires w.manifest.Regular? && w.journal.Regular?
    requires c.temp == StagedFile(c.original, paths, w) && c.record == w.journal.(content := Journal(j))
    requires SnapshotsOf(c.original, Listed(c.original)).Keys == PathsOf(Listed(c.original))
    requires j.oldManifest == Listed(c.original) && j.newManifest == RetainedIn(c.original, paths) && j.paths == paths
    requires Canonical(j.newManifest) == j.newManifest
    requires j.oldFile == SnapshotOf(c.original[INVENTORY_NAME]) && j.newFile == SnapshotOf(c.temp)
    requires j.bindings == BindingsFor(j.oldManifest, SnapshotsOf(c.original, Listed(c.original)))
    ensures CommitOk(c) && PartialOk(c, w) && c.plan.paths == paths
    ensures c.plan.before == Listed(c.original) && c.plan.after == RetainedIn(c.original, paths)
  {
    var d := c.original;
    ListingOk(d);
    assert ValidManifest(d[INVENTORY_NAME].content.artifacts);
    hide InventoryOk, PlanOk, Canonical, ValidManifest, SnapshotOf, BindingsFor, SnapshotsOf, Listed, RetainedIn, PathsOf, LOCK_NAME, INVENTORY_NAME, Bound, AllMatch;
    CommitBindings(d, c.plan, j);
  }

  lemma CommitBindings(d: Directory, p: Plan, j: PruneJournal)
    requires Describes(p, j) && AllMatch(d, p.before) && SnapshotsOf(d, p.before).Keys == PathsOf(p.before)
    requires j.bindings == BindingsFor(p.before, SnapshotsOf(d, p.before))
    ensures forall x :: x in PathsOf(p.before) ==> Bound(d, x, p.bindings[x])
  {
    hide SnapshotOf;
    forall x | x in PathsOf(p.before) ensures Bound(d, x, p.bindings[x]) {
      var k :| 0 <= k < |p.before| && p.before[k].path == x;
      assert j.bindings[k] == Binding(x, SnapshotsOf(d, p.before)[x]);
    }
  }

  // ----- The guarantees -----

  /** The committed directory is a validated inventory that lists exactly what the prune retains. */
  lemma FinalSettles(c: Commit)
    requires CommitOk(c)
    ensures Settled(Final(c), c.plan, c.plan.after)
  {
    var f := AtCommit(c);
    CommitCovered(c);
    OriginalHasNoExtras(c);
    StopsAfterCommit(c, 0);
    assert LOCK_NAME in f;
    NewSide(c, f);
    ForwardCommits(c, f);
    assert Recoverable(f, c.plan, After) && PlanOk(c.plan);
    hide *;
    RecoverySettles(f, c.plan, After);
    assert Kept(c.plan, After) == c.plan.after;
  }

  /** Crash atomicity for every prune that is let through: from any directory `_validate_inventory` accepts,
      recovery after a crash at any step ends with that directory, or with the committed one if and only if the
      manifest was replaced. */
  lemma AcceptedPruneIsAtomic(d: Directory, q: PruneRequest, root: Identity, lock: Identity, w: Partial, k: nat)
    requires ValidRequest(q) && Accepted(d, q) && q.paths != [] && w.manifest.Regular? && w.journal.Regular?
    requires IdentityRecord(root) && IdentityRecord(lock)
    ensures var c := CommitFor(d, q, root, lock, w);
            && CommitOk(c) && PartialOk(c, w) && d != Final(c)
            && InventoryOk(Final(c)) && Listed(Final(c)) == RetainedIn(d, q.paths)
            && (k <= |PruneSteps(c, w)| ==>
                  RecoversTo(Run(d, PruneSteps(c, w)[..k]), if k < CommitPoint(c) then d else Final(c), root, lock))
  {
    var c := CommitFor(d, q, root, lock, w);
    CommitForOk(d, q, root, lock, w);
    FinalSettles(c);
    OutcomesDiffer(c);
    assert InventoryOk(Final(c)) && Listed(Final(c)) == c.plan.after;
    hide *;
    if k <= |PruneSteps(c, w)| { CrashAtomicity(c, w, k, root, lock); }
  }

  /** What an accepted prune removes is a prefix of the canonical manifest order. */
  lemma AcceptedPruneTakesPrefix(d: Directory, q: PruneRequest) returns (k: nat)
    requires ValidRequest(q) && Accepted(d, q)
    ensures k <= |Listed(d)| && RetainedIn(d, q.paths) == Listed(d)[k..]
    ensures forall i :: 0 <= i < |Listed(d)| ==> (Listed(d)[i].path in q.paths <==> i < k)
  {
    if !ReadsManifest(d) {
      k := 0;
    } else {
      ListingOk(d);
      var s := Listed(d);
      CanonicalProperties(s);
      EligibleIsDue(s, q.cutoff);
      assert q.paths == EligiblePaths(s, q.cutoff) && RetainedIn(d, q.paths) == Retained(s, SetOf(q.paths));
      hide *;
      k := PruneTakesPrefix(s, q.cutoff, SetOf(q.paths));
      forall x ensures x in SetOf(q.paths) <==> x in q.paths { InSetOf(q.paths, x); }
    }
  }

  /** An accepted prune takes exactly what is not later than its cutoff, and of what is later exactly what agrees
      with the cutoff down to the microsecond; nothing later whose time has no digits beyond that. */
  lemma AcceptedPruneTakesExactly(d: Directory, q: PruneRequest, a: Artifact)
    requires ValidRequest(q) && Accepted(d, q) && a in Listed(d)
    ensures UtcText(a.createdAt)
    ensures a.path in q.paths <==> !KeyLess(q.cutoff, a.createdAt) || SameMicrosecond(q.cutoff, a.createdAt)
    ensures Nanos(a.createdAt)[6..] == Zeros(3) ==> (a.path in q.paths <==> !KeyLess(q.cutoff, a.createdAt))
    ensures a.path in q.paths <==> Moment(a.createdAt) / 1000 <= Moment(q.cutoff) / 1000
  {
    var s := Listed(d);
    var i :| 0 <= i < |s| && s[i] == a;
    ListingOk(d);
    assert ValidArtifact(s[i]) && UtcText(q.cutoff);
    assert q.paths == EligiblePaths(s, q.cutoff);
    EligibleIsDue(s, q.cutoff);
    hide *;
    InSetOf(q.paths, a.path);
    DueExactly(a, q.cutoff);
    DueIsMoment(a, q.cutoff);
  }

  /** A request fits one inventory only: two directories that accept it list the same artifacts. */
  lemma RequestFixesInventory(d: Directory, e: Directory, q: PruneRequest)
    requires ValidRequest(q) && Accepted(d, q) && Accepted(e, q)
    ensures Listed(d) == Listed(e)
  {
    ListedIsCanonical(d);
    ListedIsCanonical(e);
    hide Canonical, Listed, InventoryOk, EligiblePaths;
  }

  lemma ListedIsCanonical(d: Directory)
    requires InventoryOk(d)
    ensures Canonical(Listed(d)) == Listed(d)
  {
    if ReadsManifest(d) { ListingOk(d); }
  }

  lemma EligibleIsDue(s: seq<Artifact>, cutoff: string)
    requires UtcText(cutoff) && ValidManifest(s)
    ensures forall i :: 0 <= i < |s| ==> (s[i].path in SetOf(EligiblePaths(s, cutoff)) <==> Due(s[i], cutoff))
  {
    EligibleProperties(s, cutoff);
    hide EligiblePaths, UtcText, Due, ValidArtifact;
    forall i | 0 <= i < |s| ensures s[i].path in SetOf(EligiblePaths(s, cutoff)) <==> Due(s[i], cutoff) {
      if s[i].path in EligiblePaths(s, cutoff) {
        var m :| 0 <= m < |s| && s[m].path == s[i].path && Due(s[m], cutoff);
        assert m == i;
      }
    }
  }

  // ----- The operation -----

  /** `_publish_prune_journal`: create the temporary journal, then move it into place. */
  method PublishPruneJournal(root: BackupRoot, journal: PruneJournal, partial: Entry, manifestFile: Snapshot, journalFits: bool)
      returns (r: Result<Snapshot>)
    requires partial.Regular? && JOURNAL_NAME !in root.entries && JOURNAL_TEMP_NAME !in root.entries
    requires Bound(root.entries, INVENTORY_NAME, manifestFile)
    modifies root
    ensures r.Ok? == journalFits
    ensures r.Err? ==> root.entries == old(root.entries) && root.log == old(root.log)
    ensures r.Ok? ==> r.value == SnapshotOf(partial.(content := Journal(journal)))
    ensures r.Ok? ==>
              var steps := [Create(JOURNAL_TEMP_NAME, partial), Fill(JOURNAL_TEMP_NAME, Journal(journal))] + [Move(JOURNAL_TEMP_NAME, JOURNAL_NAME)];
              root.entries == Run(old(root.entries), steps) && root.log == old(root.log) + steps
  {
    ghost var d, s := root.entries, [Create(JOURNAL_TEMP_NAME, partial), Fill(JOURNAL_TEMP_NAME, Journal(journal))];
    ControlNamesDiffer();
    hide Run, SnapshotOf, INVENTORY_NAME, JOURNAL_NAME, JOURNAL_TEMP_NAME;
    if !journalFits { return Err(InventoryError("prune journal is too large")); }
    assert JOURNAL_NAME !in root.entries;
    var tempFile := root.CreateControl(JOURNAL_TEMP_NAME, partial, Journal(journal));
    var manifestSame := root.NamedSnapshotIs(INVENTORY_NAME, manifestFile);
    var tempSame := root.NamedSnapshotIs(JOURNAL_TEMP_NAME, tempFile);
    assert manifestSame && tempSame;
    root.Rename(JOURNAL_TEMP_NAME, JOURNAL_NAME);
    RunSnoc(d, s, Move(JOURNAL_TEMP_NAME, JOURNAL_NAME));
    Appended(old(root.log), s, Move(JOURNAL_TEMP_NAME, JOURNAL_NAME));
    var published := root.NamedSnapshotIs(JOURNAL_NAME, tempFile);
    assert published;
    r := Ok(tempFile);
  }

  function ItemsByPath(s: seq<Artifact>): (m: map<string, Artifact>)
    requires DistinctPaths(s)
    ensures m.Keys == PathsOf(s) && forall i :: 0 <= i < |s| ==> m[s[i].path] == s[i]
  {
    map i | 0 <= i < |s| :: s[i].path := s[i]
  }

  /** The file stands as expected and as its manifest line says. */
  predicate Revalidates(d: Directory, item: Artifact, expected: Snapshot) {
    Bound(d, item.path, expected) && expected.size == item.size && expected.sha256 == item.sha256
  }

  /** `_revalidate_artifact`. */
  method RevalidateArtifact(root: BackupRoot, item: Artifact, expected: Snapshot) returns (same: bool)
    ensures same <==> Revalidates(root.entries, item, expected)
  {
    var current := root.NamedSnapshotIs(item.path, expected);
    same := current && expected.size == item.size && expected.sha256 == item.sha256;
  }

  /** The checks of all files to be removed, before anything is written. */
  method RevalidateAll(root: BackupRoot, paths: seq<string>, items: map<string, Artifact>, snapshots: map<string, Snapshot>)
      returns (same: bool)
    requires forall p :: p in paths ==> p in items && p in snapshots
    ensures same <==> forall p :: p in paths ==> Revalidates(root.entries, items[p], snapshots[p])
  {
    hide Revalidates;
    for k := 0 to |paths|
      invariant forall i :: 0 <= i < k ==> Revalidates(root.entries, items[paths[i]], snapshots[paths[i]])
    {
      assert paths[k] in paths;
      var valid := RevalidateArtifact(root, items[paths[k]], snapshots[paths[k]]);
      if !valid { return false; }
    }
    same := true;
  }

  lemma RevalidatesFrom(d: Directory, item: Artifact, expected: Snapshot)
    requires Bound(d, item.path, expected) && expected.size == item.size && expected.sha256 == item.sha256
    ensures Revalidates(d, item, expected)
  {
  }

  /** One move to quarantine, after its re-checks. */
  method QuarantineOne(root: BackupRoot, item: Artifact, hidden: string, expected: Snapshot, manifestFile: Snapshot, journalFile: Snapshot)
    requires Bound(root.entries, JOURNAL_NAME, journalFile) && Bound(root.entries, INVENTORY_NAME, manifestFile)
    requires Revalidates(root.entries, item, expected) && hidden !in root.entries
    modifies root
    ensures root.entries == Apply(old(root.entries), Move(item.path, hidden)) && root.log == old(root.log) + [Move(item.path, hidden)]
  {
    hide INVENTORY_NAME, JOURNAL_NAME, SnapshotOf;
    assert item.path in root.entries;
    var valid := RevalidateArtifact(root, item, expected);
    var manifestSame := root.NamedSnapshotIs(INVENTORY_NAME, manifestFile);
    var journalSame := root.NamedSnapshotIs(JOURNAL_NAME, journalFile);
    var free := hidden !in root.entries;
    assert valid && manifestSame && journalSame && free;
    root.Rename(item.path, hidden);
    var moved := root.NamedSnapshotIs(hidden, expected);
    assert moved;
  }

  lemma PublishedControls(c: Commit)
    requires CommitOk(c)
    ensures Bound(Published(c), JOURNAL_NAME, SnapshotOf(c.record)) && Bound(Published(c), INVENTORY_NAME, c.plan.oldFile)
    ensures Bound(Published(c), MANIFEST_TEMP_NAME, c.plan.newFile)
  {
    ControlNamesDiffer();
    hide PlanOk, SnapshotOf, ValidManifest, Listed, PathsOf, INVENTORY_NAME, LOCK_NAME, JOURNAL_NAME, JOURNAL_TEMP_NAME, MANIFEST_TEMP_NAME;
  }

  /** The directory after `i` moves to quarantine. */
  ghost function AfterHiding(c: Commit, i: nat): Directory
    requires Covered(c.plan) && i <= |c.plan.paths|
  {
    Run(Published(c), Hide(PairsOf(c.plan), i))
  }

  lemma PathKnown(c: Commit, i: nat)
    requires CommitOk(c) && i < |c.plan.paths|
    ensures var path := c.plan.paths[i];
            && PlanOk(c.plan) && path in PathsOf(c.plan.before) && path in c.plan.quarantine && path in c.plan.bindings
            && Bound(c.original, path, c.plan.bindings[path])
  {
    assert c.plan.paths[i] in SetOf(c.plan.paths);
    assert Bound(c.original, c.plan.paths[i], c.plan.bindings[c.plan.paths[i]]);
  }

  /** What the quarantine loop knows before its turn `i`. */
  lemma QuarantineTurn(c: Commit, i: nat)
    requires CommitOk(c) && Covered(c.plan) && i < |c.plan.paths|
    ensures var path := c.plan.paths[i];
            && path in c.plan.quarantine && path in c.plan.bindings
            && var q, e := c.plan.quarantine[path], AfterHiding(c, i);
            && Bound(e, JOURNAL_NAME, SnapshotOf(c.record)) && Bound(e, INVENTORY_NAME, c.plan.oldFile)
            && Bound(e, path, c.plan.bindings[path]) && q !in e
            && AfterHiding(c, i + 1) == Apply(e, Move(path, q))
            && Hide(PairsOf(c.plan), i + 1) == Hide(PairsOf(c.plan), i) + [Move(path, q)]
  {
    hide *;
    HidingRuns(c, i);
    HidingRuns(c, i + 1);
    var ps, path, d, e := PairsOf(c.plan), c.plan.paths[i], Published(c), AfterHiding(c, i);
    PathKnown(c, i);
    CommitHasRecord(c);
    PublishedControls(c);
    PublishedItem(c, path);
    PairsApart(c.plan);
    PathsPresent(c);
    ControlsHere();
    HideNext(d, ps, i);
    ControlsAt(d, e, c.plan, i);
    StaysBound(d, e, JOURNAL_NAME, SnapshotOf(c.record));
    StaysBound(d, e, INVENTORY_NAME, c.plan.oldFile);
    StaysBound(c.original, d, path, c.plan.bindings[path]);
    StaysBound(d, e, path, c.plan.bindings[path]);
    StaysAbsent(d, e, c.plan.quarantine[path]);
  }

  /** What the operation holds in its hands agrees with the prune `c`. */
  ghost predicate InHand(c: Commit, operationId: string, items: map<string, Artifact>, snapshots: map<string, Snapshot>)
    requires Covered(c.plan)
  {
    forall i :: 0 <= i < |c.plan.paths| ==> PathInHand(c, operationId, items, snapshots, i)
  }

  ghost predicate PathInHand(c: Commit, operationId: string, items: map<string, Artifact>, snapshots: map<string, Snapshot>, i: nat)
    requires Covered(c.plan) && i < |c.plan.paths|
  {
    var path := c.plan.paths[i];
    && path in items && path in snapshots && path in c.plan.bindings && path in c.plan.quarantine
    && items[path].path == path && snapshots[path] == c.plan.bindings[path]
    && snapshots[path].size == items[path].size && snapshots[path].sha256 == items[path].sha256
    && c.plan.quarantine[path] == QuarantineName(operationId, i)
  }

  lemma InHandAt(c: Commit, operationId: string, items: map<string, Artifact>, snapshots: map<string, Snapshot>, i: nat)
    requires Covered(c.plan) && i < |c.plan.paths| && InHand(c, operationId, items, snapshots)
    ensures PathInHand(c, operationId, items, snapshots, i)
  {
    hide PathInHand;
  }

  lemma CommitHasRecord(c: Commit)
    requires CommitOk(c)
    ensures c.record.Regular?
  {
  }

  /** What the two loops behind the published journal work with. */
  ghost predicate Equipped(c: Commit, paths: seq<string>, operationId: string, items: map<string, Artifact>,
                           snapshots: map<string, Snapshot>, journalFile: Snapshot)
    requires Covered(c.plan)
  {
    && CommitOk(c) && c.plan.paths == paths && InHand(c, operationId, items, snapshots)
    && c.record.Regular? && journalFile == SnapshotOf(c.record)
  }

  lemma EquippedMeans(c: Commit, paths: seq<string>, operationId: string, items: map<string, Artifact>,
                      snapshots: map<string, Snapshot>, journalFile: Snapshot)
    requires Covered(c.plan)
    ensures Equipped(c, paths, operationId, items, snapshots, journalFile) <==>
            && CommitOk(c) && c.plan.paths == paths && InHand(c, operationId, items, snapshots)
            && c.record.Regular? && journalFile == SnapshotOf(c.record)
  {
    hide CommitOk, InHand, SnapshotOf;
  }

  lemma NothingHidden(c: Commit, log: seq<Step>)
    requires Covered(c.plan)
    ensures HasHidden(c, 0, Published(c), log, log)
  {
    hide Published;
  }

  /** The directory and the log after `i` moves to quarantine, counted from the log `before`. */
  ghost predicate HasHidden(c: Commit, i: nat, d: Directory, log: seq<Step>, before: seq<Step>)
    requires Covered(c.plan) && i <= |c.plan.paths|
  {
    d == AfterHiding(c, i) && log == before + Hide(PairsOf(c.plan), i)
  }

  /** One turn of the quarantine loop. */
  method QuarantineTurnOf(root: BackupRoot, i: nat, operationId: string, path: string, items: map<string, Artifact>,
                          snapshots: map<string, Snapshot>, manifestFile: Snapshot, journalFile: Snapshot,
                          ghost c: Commit, ghost log: seq<Step>)
    requires CommitOk(c) && Covered(c.plan) && i < |c.plan.paths| && path == c.plan.paths[i]
    requires PathInHand(c, operationId, items, snapshots, i)
    requires manifestFile == c.plan.oldFile && c.record.Regular? && journalFile == SnapshotOf(c.record)
    requires HasHidden(c, i, root.entries, root.log, log)
    modifies root
    ensures HasHidden(c, i + 1, root.entries, root.log, log)
  {
    ghost var s := Hide(PairsOf(c.plan), i);
    assert path in items && path in snapshots && items[path].path == path && snapshots[path] == c.plan.bindings[path]
           && snapshots[path].size == items[path].size && snapshots[path].sha256 == items[path].sha256
           && c.plan.quarantine[path] == QuarantineName(operationId, i);
    hide *;
    HiddenSoFar(c, i, root.entries, root.log, log);
    QuarantineTurn(c, i);
    RevalidatesFrom(root.entries, items[path], snapshots[path]);
    QuarantineOne(root, items[path], QuarantineName(operationId, i), snapshots[path], manifestFile, journalFile);
    Appended(log, s, Move(path, QuarantineName(operationId, i)));
    HiddenSoFar(c, i + 1, root.entries, root.log, log);
  }

  lemma HiddenSoFar(c: Commit, i: nat, d: Directory, log: seq<Step>, before: seq<Step>)
    requires Covered(c.plan) && i <= |c.plan.paths|
    ensures HasHidden(c, i, d, log, before) <==> d == AfterHiding(c, i) && log == before + Hide(PairsOf(c.plan), i)
  {
    hide AfterHiding, Hide;
  }

  /** The quarantine loop of `prune_inventory`. */
  method QuarantineAll(root: BackupRoot, paths: seq<string>, operationId: string, items: map<string, Artifact>,
                       snapshots: map<string, Snapshot>, manifestFile: Snapshot, journalFile: Snapshot, ghost c: Commit)
    requires Covered(c.plan) && Equipped(c, paths, operationId, items, snapshots, journalFile) && manifestFile == c.plan.oldFile
    requires root.entries == Published(c)
    modifies root
    ensures HasHidden(c, |c.plan.paths|, root.entries, root.log, old(root.log))
  {
    ghost var log := root.log;
    hide *;
    EquippedMeans(c, paths, operationId, items, snapshots, journalFile);
    NothingHidden(c, log);
    for i := 0 to |paths|
      invariant HasHidden(c, i, root.entries, root.log, log)
    {
      InHandAt(c, operationId, items, snapshots, i);
      QuarantineTurnOf(root, i, operationId, paths[i], items, snapshots, manifestFile, journalFile, c, log);
    }
  }

  /** What the removal loop knows before its turn `i`. */
  lemma DropTurn(c: Commit, i: nat)
    requires CommitOk(c) && Covered(c.plan) && i < |c.plan.paths|
    ensures var path, f, ps := c.plan.paths[i], AtCommit(c), PairsOf(c.plan);
            && path in c.plan.quarantine && path in c.plan.bindings
            && var q, s := c.plan.quarantine[path], Sweep(f, ps, i);
            && Bound(Run(f, s), JOURNAL_NAME, SnapshotOf(c.record)) && Bound(Run(f, s), INVENTORY_NAME, c.plan.newFile)
            && Bound(Run(f, s), q, c.plan.bindings[path])
            && Run(f, Sweep(f, ps, i + 1)) == Apply(Run(f, s), Unlink(q)) && Sweep(f, ps, i + 1) == s + [Unlink(q)]
  {
    var path, f, ps := c.plan.paths[i], AtCommit(c), PairsOf(c.plan);
    assert path in SetOf(c.plan.paths) && path in PathsOf(c.plan.before);
    var q, e := c.plan.quarantine[path], Run(f, Sweep(f, ps, i));
    StopsAfterCommit(c, 0);
    HiddenAtCommit(c, i);
    CommittedControls(c);
    assert Recoverable(f, c.plan, After) && PlanOk(c.plan);
    hide *;
    ForwardMiddle(f, c.plan, i);
    StaysBound(f, e, JOURNAL_NAME, SnapshotOf(c.record));
    StaysBound(f, e, INVENTORY_NAME, c.plan.newFile);
    StaysBound(f, e, q, c.plan.bindings[path]);
  }

  lemma HiddenAtCommit(c: Commit, i: nat)
    requires CommitOk(c) && Covered(c.plan) && i < |c.plan.paths|
    ensures c.plan.paths[i] in c.plan.quarantine && c.plan.quarantine[c.plan.paths[i]] in AtCommit(c)
  {
    hide *;
    CommitCovered(c);
    var n, path := |c.plan.paths|, c.plan.paths[i];
    QuarantinedName(c, i);
    QuarantineRuns(c, n);
    CommittedFrom(c);
    HidingRuns(c, n);
    QuarantinedHas(c, AfterHiding(c, n), i);
    SurvivesReplace(AfterHiding(c, n), c.plan.quarantine[path]);
  }

  lemma HidingRuns(c: Commit, i: nat)
    requires Covered(c.plan) && i <= |c.plan.paths|
    ensures c.plan.quarantine.Keys == SetOf(c.plan.paths) && AfterHiding(c, i) == Run(Published(c), Hide(PairsOf(c.plan), i))
  {
    hide Published, Run, Hide, SetOf;
  }

  lemma QuarantinedName(c: Commit, i: nat)
    requires CommitOk(c) && Covered(c.plan) && i < |c.plan.paths|
    ensures c.plan.paths[i] in c.plan.quarantine && c.plan.quarantine[c.plan.paths[i]] !in ControlNames()
  {
    assert c.plan.paths[i] in SetOf(c.plan.paths);
  }

  lemma QuarantinedHas(c: Commit, e: Directory, i: nat)
    requires Covered(c.plan) && i < |c.plan.paths| && c.plan.paths[i] in c.plan.quarantine && Quarantined(c, e, |c.plan.paths|)
    ensures c.plan.quarantine[c.plan.paths[i]] in e
  {
    hide Published, SameElsewhere;
    assert PairsOf(c.plan)[i].hidden in e;
  }

  lemma SurvivesReplace(e: Directory, q: string)
    requires q in e && q !in ControlNames()
    ensures q in Apply(e, Move(MANIFEST_TEMP_NAME, INVENTORY_NAME))
  {
    ControlsHere();
    hide ControlNames, MANIFEST_TEMP_NAME, INVENTORY_NAME;
  }

  lemma CommittedControls(c: Commit)
    requires CommitOk(c) && Covered(c.plan)
    ensures Bound(AtCommit(c), JOURNAL_NAME, SnapshotOf(c.record)) && Bound(AtCommit(c), INVENTORY_NAME, c.plan.newFile)
  {
    StopsAfterCommit(c, 0);
    hide PlanOk, AtCommit, SnapshotOf, Recoverable, INVENTORY_NAME, LOCK_NAME, JOURNAL_NAME, JOURNAL_TEMP_NAME, MANIFEST_TEMP_NAME;
  }

  /** The directory after the commit and `i` removals. */
  ghost function AfterDropping(c: Commit, i: nat): Directory
    requires Covered(c.plan) && i <= |c.plan.paths|
  {
    Run(AtCommit(c), Drop(PairsOf(c.plan), i))
  }

  lemma DroppingRuns(c: Commit, i: nat)
    requires Covered(c.plan) && i <= |c.plan.paths|
    ensures AfterDropping(c, i) == Run(AtCommit(c), Drop(PairsOf(c.plan), i))
  {
    hide AtCommit, Run, Drop;
  }

  lemma DropAsSweep(c: Commit, i: nat)
    requires CommitOk(c) && Covered(c.plan) && i <= |c.plan.paths|
    ensures Drop(PairsOf(c.plan), i) == Sweep(AtCommit(c), PairsOf(c.plan), i)
  {
    hide CommitOk, AtCommit, Sweep, Drop;
    forall k | 0 <= k < i ensures PairsOf(c.plan)[k].hidden in AtCommit(c) { HiddenAtCommit(c, k); }
    DropIsSweep(AtCommit(c), PairsOf(c.plan), i);
  }

  /** One removal from quarantine. */
  method DropOne(root: BackupRoot, i: nat, operationId: string, path: string, items: map<string, Artifact>,
                 snapshots: map<string, Snapshot>, manifestFile: Snapshot, journalFile: Snapshot,
                 ghost c: Commit, ghost log: seq<Step>)
    requires CommitOk(c) && Covered(c.plan) && i < |c.plan.paths| && path == c.plan.paths[i]
    requires PathInHand(c, operationId, items, snapshots, i)
    requires manifestFile == c.plan.newFile && c.record.Regular? && journalFile == SnapshotOf(c.record)
    requires HasDropped(c, i, root.entries, root.log, log)
    modifies root
    ensures HasDropped(c, i + 1, root.entries, root.log, log)
  {
    ghost var s := Drop(PairsOf(c.plan), i);
    assert path in snapshots && path in c.plan.quarantine && path in c.plan.bindings
           && snapshots[path] == c.plan.bindings[path] && c.plan.quarantine[path] == QuarantineName(operationId, i);
    hide *;
    DroppedSoFar(c, i, root.entries, root.log, log);
    DropStep(c, i);
    SweepOne(root, QuarantineName(operationId, i), snapshots[path], manifestFile, journalFile);
    Appended(log, s, Unlink(QuarantineName(operationId, i)));
    DroppedSoFar(c, i + 1, root.entries, root.log, log);
  }

  lemma DropStep(c: Commit, i: nat)
    requires CommitOk(c) && Covered(c.plan) && i < |c.plan.paths|
    ensures var path, e, ps := c.plan.paths[i], AfterDropping(c, i), PairsOf(c.plan);
            && path in c.plan.quarantine && path in c.plan.bindings
            && var q := c.plan.quarantine[path];
            && Bound(e, JOURNAL_NAME, SnapshotOf(c.record)) && Bound(e, INVENTORY_NAME, c.plan.newFile)
            && Bound(e, q, c.plan.bindings[path])
            && AfterDropping(c, i + 1) == Apply(e, Unlink(q)) && Drop(ps, i + 1) == Drop(ps, i) + [Unlink(q)]
  {
    hide *;
    DroppingRuns(c, i);
    DroppingRuns(c, i + 1);
    DropAsSweep(c, i);
    DropAsSweep(c, i + 1);
    DropTurn(c, i);
  }

  /** The removal loop of `prune_inventory`. */
  method DropAll(root: BackupRoot, paths: seq<string>, operationId: string, items: map<string, Artifact>,
                 snapshots: map<string, Snapshot>, manifestFile: Snapshot, journalFile: Snapshot, ghost c: Commit)
    requires Covered(c.plan) && Equipped(c, paths, operationId, items, snapshots, journalFile) && manifestFile == c.plan.newFile
    requires root.entries == AtCommit(c)
    modifies root
    ensures HasDropped(c, |c.plan.paths|, root.entries, root.log, old(root.log))
  {
    ghost var log := root.log;
    hide *;
    EquippedMeans(c, paths, operationId, items, snapshots, journalFile);
    NothingDropped(c, log);
    for i := 0 to |paths|
      invariant HasDropped(c, i, root.entries, root.log, log)
    {
      InHandAt(c, operationId, items, snapshots, i);
      DropOne(root, i, operationId, paths[i], items, snapshots, manifestFile, journalFile, c, log);
    }
  }

  lemma NothingDropped(c: Commit, log: seq<Step>)
    requires Covered(c.plan)
    ensures HasDropped(c, 0, AtCommit(c), log, log)
  {
    hide AtCommit;
  }

  /** The directory and the log after `i` removals, counted from the log `before`. */
  ghost predicate HasDropped(c: Commit, i: nat, d: Directory, log: seq<Step>, before: seq<Step>)
    requires Covered(c.plan) && i <= |c.plan.paths|
  {
    d == AfterDropping(c, i) && log == before + Drop(PairsOf(c.plan), i)
  }

  lemma DroppedSoFar(c: Commit, i: nat, d: Directory, log: seq<Step>, before: seq<Step>)
    requires Covered(c.plan) && i <= |c.plan.paths|
    ensures HasDropped(c, i, d, log, before) <==> d == AfterDropping(c, i) && log == before + Drop(PairsOf(c.plan), i)
  {
    hide AfterDropping, Drop;
  }

  /** Before the journal goes: the controls are as committed and every retained file is still its own. */
  lemma RetainedKept(c: Commit)
    requires CommitOk(c) && Covered(c.plan)
    ensures var e := AfterDropping(c, |c.plan.paths|);
            && Bound(e, JOURNAL_NAME, SnapshotOf(c.record)) && Bound(e, INVENTORY_NAME, c.plan.newFile)
            && forall a :: a in c.plan.after ==> a.path in c.plan.bindings && Bound(e, a.path, c.plan.bindings[a.path])
  {
    var f, ps, n := AtCommit(c), PairsOf(c.plan), |c.plan.paths|;
    var e := Run(f, Sweep(f, ps, n));
    DropAsSweep(c, n);
    DroppingRuns(c, n);
    StopsAfterCommit(c, 0);
    CommittedControls(c);
    ControlsHere();
    PairsApart(c.plan);
    RetainedMembers(c.plan.before, SetOf(c.plan.paths));
    assert PlanOk(c.plan) && Recoverable(f, c.plan, After) && c.plan.after == Retained(c.plan.before, SetOf(c.plan.paths));
    hide CommitOk, PlanOk, Recoverable, AtCommit, AfterDropping, Sweep, SweptUpTo, Apart, Run, Retained, SnapshotOf, Bound, SameAt, ControlNames,
      INVENTORY_NAME, LOCK_NAME, JOURNAL_NAME, JOURNAL_TEMP_NAME, MANIFEST_TEMP_NAME;
    SweepImage(f, ps, n);
    ForwardEnd(f, c.plan);
    StaysBound(f, e, JOURNAL_NAME, SnapshotOf(c.record));
    StaysBound(f, e, INVENTORY_NAME, c.plan.newFile);
    forall a | a in c.plan.after ensures a.path in c.plan.bindings && Bound(e, a.path, c.plan.bindings[a.path]) {
      ForwardKeeps(f, e, c.plan, a);
    }
  }

  lemma ForwardKeeps(f: Directory, e: Directory, p: Plan, a: Artifact)
    requires PlanOk(p) && Covered(p) && Recoverable(f, p, After) && SweptUpTo(f, e, PairsOf(p), |p.paths|) && a in p.before && a.path !in SetOf(p.paths)
    ensures a.path in p.bindings && Bound(e, a.path, p.bindings[a.path])
  {
    hide PlanOk, Recoverable, SweptUpTo, Bound, SameAt;
    var k :| 0 <= k < |p.before| && p.before[k] == a;
    assert a.path in PathsOf(p.before);
    ForwardAt(f, e, p, a.path);
  }

  method RetainedUnchanged(root: BackupRoot, items: seq<Artifact>, snapshots: map<string, Snapshot>) returns (same: bool)
    requires forall a :: a in items ==> a.path in snapshots
    ensures same <==> forall a :: a in items ==> Bound(root.entries, a.path, snapshots[a.path])
  {
    hide Bound;
    for k := 0 to |items|
      invariant forall i :: 0 <= i < k ==> Bound(root.entries, items[i].path, snapshots[items[i].path])
    {
      assert items[k] in items;
      var still := root.NamedSnapshotIs(items[k].path, snapshots[items[k].path]);
      if !still { return false; }
    }
    same := true;
  }

  /** What is discarded when a prune fails before its journal is published: nothing once it is, and otherwise the
      two temporary files, up to the first that is not a regular file. */
  function DiscardScript(d: Directory): Script {
    if JOURNAL_NAME in d then Script([], d[JOURNAL_NAME].Regular?) else CleanupScript(d)
  }

  /** `_discard_unpublished_prune_files`. */
  method DiscardUnpublishedPruneFiles(root: BackupRoot) returns (ok: bool)
    modifies root
    ensures var s := DiscardScript(old(root.entries));
            ok == s.ok && root.entries == Run(old(root.entries), s.steps) && root.log == old(root.log) + s.steps
    ensures JOURNAL_NAME in old(root.entries) ==> root.entries == old(root.entries) && ok == old(root.entries)[JOURNAL_NAME].Regular?
  {
    ghost var d, log := root.entries, root.log;
    hide Run, CleanupScript, SnapshotOf, INVENTORY_NAME, LOCK_NAME, JOURNAL_NAME, JOURNAL_TEMP_NAME, MANIFEST_TEMP_NAME;
    NothingRan(d, log);
    var published := root.EntrySnapshot(JOURNAL_NAME);
    if published.Err? { return false; }
    if published.value.Some? { return true; }
    ok := CleanupUnpublishedControls(root);
  }

  lemma StagedGoes(d: Directory)
    requires JOURNAL_NAME !in d && JOURNAL_TEMP_NAME !in d && MANIFEST_TEMP_NAME in d && d[MANIFEST_TEMP_NAME].Regular?
    ensures DiscardScript(d) == Script([Unlink(MANIFEST_TEMP_NAME)], true)
    ensures Run(d, [Unlink(MANIFEST_TEMP_NAME)]) == Apply(d, Unlink(MANIFEST_TEMP_NAME))
  {
    hide JOURNAL_NAME, JOURNAL_TEMP_NAME, MANIFEST_TEMP_NAME;
    RunSnoc(d, [], Unlink(MANIFEST_TEMP_NAME));
    assert [] + [Unlink(MANIFEST_TEMP_NAME)] == [Unlink(MANIFEST_TEMP_NAME)];
  }

  /** What the operation has computed from the validated listing, as the prune `c` has it. */
  ghost predicate Prepared(c: Commit, w: Partial, q: PruneRequest, root: Identity, lock: Identity,
                           artifacts: seq<Artifact>, snapshots: map<string, Snapshot>, file: Snapshot)
  {
    && CommitOk(c) && PartialOk(c, w) && c.plan.paths == q.paths && c.plan.before == artifacts && c.plan.oldFile == file
    && c.temp.content == ManifestPayload(Retained(artifacts, SetOf(q.paths))) && PathsOf(artifacts) <= snapshots.Keys
    && c.record.content == Journal(JournalFor(q.operationId, q.cutoff, root, lock, artifacts, q.paths, file, SnapshotOf(c.temp), snapshots))
    && snapshots.Keys == c.plan.bindings.Keys && (forall x :: x in snapshots ==> snapshots[x] == c.plan.bindings[x])
    && (forall i :: 0 <= i < |q.paths| ==> q.paths[i] in c.plan.quarantine && c.plan.quarantine[q.paths[i]] == QuarantineName(q.operationId, i))
  }

  function AbandonSteps(c: Commit, w: Partial): seq<Step>
    requires c.temp.Regular?
  {
    [Create(MANIFEST_TEMP_NAME, w.manifest), Fill(MANIFEST_TEMP_NAME, c.temp.content)] + [Unlink(MANIFEST_TEMP_NAME)]
  }

  lemma StagedOnly(c: Commit, w: Partial)
    requires CommitOk(c) && PartialOk(c, w)
    ensures var d := Run(c.original, [Create(MANIFEST_TEMP_NAME, w.manifest), Fill(MANIFEST_TEMP_NAME, c.temp.content)]);
            && JOURNAL_NAME !in d && JOURNAL_TEMP_NAME !in d && MANIFEST_TEMP_NAME in d && d[MANIFEST_TEMP_NAME] == c.temp
            && Bound(d, INVENTORY_NAME, c.plan.oldFile) && Apply(d, Unlink(MANIFEST_TEMP_NAME)) == c.original
    ensures MANIFEST_TEMP_NAME !in c.original
  {
    OriginalHasNoExtras(c);
    ControlNamesDiffer();
    assert Bound(c.original, INVENTORY_NAME, c.plan.oldFile);
    hide CommitOk, SnapshotOf, INVENTORY_NAME, JOURNAL_NAME, JOURNAL_TEMP_NAME, MANIFEST_TEMP_NAME;
    var a, b := Create(MANIFEST_TEMP_NAME, w.manifest), Fill(MANIFEST_TEMP_NAME, c.temp.content);
    RunSnoc(c.original, [], a);
    RunSnoc(c.original, [a], b);
    assert [] + [a] == [a] && [a] + [b] == [a, b];
    hide Run;
    var d := c.original[MANIFEST_TEMP_NAME := c.temp];
    assert Apply(Apply(c.original, a), b) == d;
    assert d - {MANIFEST_TEMP_NAME} == c.original;
  }

  lemma StageLog(log: seq<Step>, a: seq<Step>, b: seq<Step>, m: seq<Step>)
    ensures log + a + (b + m) == log + (a + b + m) && a + (b + m) == a + b + m
  {
  }

  /** Staging and publication: afterwards the journal is published, or everything is as before. */
  method Stage(root: BackupRoot, q: PruneRequest, artifacts: seq<Artifact>, snapshots: map<string, Snapshot>, file: Snapshot,
               w: Partial, journalFits: bool, ghost c: Commit) returns (r: Result<(Snapshot, Snapshot)>)
    requires Prepared(c, w, q, root.root, root.lock, artifacts, snapshots, file) && root.entries == c.original
    modifies root
    ensures r.Ok? == journalFits && c.temp.Regular? && c.record.Regular?
    ensures r.Err? ==> root.entries == old(root.entries) && root.log == old(root.log) + AbandonSteps(c, w)
    ensures r.Ok? ==> r.value == (SnapshotOf(c.temp), SnapshotOf(c.record)) && root.entries == Published(c)
    ensures r.Ok? ==> root.log == old(root.log) + (StageSteps(c, w) + [Move(JOURNAL_TEMP_NAME, JOURNAL_NAME)])
  {
    ghost var log, a := root.log, [Create(MANIFEST_TEMP_NAME, w.manifest), Fill(MANIFEST_TEMP_NAME, c.temp.content)];
    ghost var b := [Create(JOURNAL_TEMP_NAME, w.journal), Fill(JOURNAL_TEMP_NAME, c.record.content)];
    StagedOnly(c, w);
    PublishRuns(c, w);
    StageLog(log, a, b, [Move(JOURNAL_TEMP_NAME, JOURNAL_NAME)]);
    RunConcat(c.original, a, b + [Move(JOURNAL_TEMP_NAME, JOURNAL_NAME)]);
    Appended(log, a, Unlink(MANIFEST_TEMP_NAME));
    assert StageSteps(c, w) == a + b && AbandonSteps(c, w) == a + [Unlink(MANIFEST_TEMP_NAME)];
    assert w.manifest.Regular? && w.journal.Regular? && c.temp.Regular? && c.record.Regular?;
    assert w.manifest.(content := c.temp.content) == c.temp && w.journal.(content := c.record.content) == c.record;
    assert c.plan.oldFile == file && PathsOf(artifacts) <= snapshots.Keys;
    assert c.temp.content == ManifestPayload(Retained(artifacts, SetOf(q.paths)));
    assert c.record.content == Journal(JournalFor(q.operationId, q.cutoff, root.root, root.lock, artifacts, q.paths, file, SnapshotOf(c.temp), snapshots));
    hide *;
    var temp := root.CreateControl(MANIFEST_TEMP_NAME, w.manifest, ManifestPayload(Retained(artifacts, SetOf(q.paths))));
    var manifestSame := root.NamedSnapshotIs(INVENTORY_NAME, file);
    assert manifestSame;
    var journal := JournalFor(q.operationId, q.cutoff, root.root, root.lock, artifacts, q.paths, file, temp, snapshots);
    var published := PublishPruneJournal(root, journal, w.journal, file, journalFits);
    if published.Err? {
      StagedGoes(root.entries);
      var discarded := DiscardUnpublishedPruneFiles(root);
      assert discarded;
      return Err(published.error);
    }
    r := Ok((temp, published.value));
  }

  lemma QuarantinedControlsBound(c: Commit)
    requires CommitOk(c) && Covered(c.plan)
    ensures var e := AfterHiding(c, |c.plan.paths|);
            && Bound(e, JOURNAL_NAME, SnapshotOf(c.record)) && Bound(e, INVENTORY_NAME, c.plan.oldFile)
            && Bound(e, MANIFEST_TEMP_NAME, c.plan.newFile) && AtCommit(c) == Apply(e, Move(MANIFEST_TEMP_NAME, INVENTORY_NAME))
  {
    hide *;
    CommitCovered(c);
    var n, e := |c.plan.paths|, AfterHiding(c, |c.plan.paths|);
    PublishedControls(c);
    QuarantineRuns(c, n);
    CommittedFrom(c);
    HidingRuns(c, n);
    ControlsHere();
    QuarantinedControls(c, e, n);
    StaysBound(Published(c), e, JOURNAL_NAME, SnapshotOf(c.record));
    StaysBound(Published(c), e, INVENTORY_NAME, c.plan.oldFile);
    StaysBound(Published(c), e, MANIFEST_TEMP_NAME, c.plan.newFile);
  }

  lemma ClosedIsFinal(c: Commit)
    requires CommitOk(c) && Covered(c.plan)
    ensures Apply(AfterDropping(c, |c.plan.paths|), Unlink(JOURNAL_NAME)) == Final(c)
    ensures ClosingSteps(c.plan) == Drop(PairsOf(c.plan), |c.plan.paths|) + [Unlink(JOURNAL_NAME)]
  {
    hide CommitOk, AtCommit, Drop, Run;
    var s, z := Drop(PairsOf(c.plan), |c.plan.paths|), ClosingSteps(c.plan);
    assert z == s + [Unlink(JOURNAL_NAME)];
    assert AfterDropping(c, |c.plan.paths|) == Run(AtCommit(c), s);
    hide *;
    StopsAfterCommit(c, |z|);
    assert z[..|z|] == z;
    RunSnoc(AtCommit(c), s, Unlink(JOURNAL_NAME));
  }

  lemma CloseLog(log: seq<Step>, h: seq<Step>, m: Step, z: seq<Step>, u: Step)
    ensures log + h + [m] + z + [u] == log + (h + ([m] + (z + [u])))
  {
  }

  /** From the published journal to the end: quarantine, the commit point, the removals, the journal, the final
      validation. */
  method CommitAndClose(root: BackupRoot, q: PruneRequest, items: map<string, Artifact>, snapshots: map<string, Snapshot>,
                        retained: seq<Artifact>, oldFile: Snapshot, newFile: Snapshot, journalFile: Snapshot, ghost c: Commit)
    requires CommitOk(c) && Covered(c.plan) && c.plan.paths == q.paths && InHand(c, q.operationId, items, snapshots)
    requires oldFile == c.plan.oldFile && newFile == c.plan.newFile && journalFile == SnapshotOf(c.record)
    requires snapshots.Keys == c.plan.bindings.Keys && (forall x :: x in snapshots ==> snapshots[x] == c.plan.bindings[x])
    requires retained == c.plan.after && root.entries == Published(c)
    modifies root
    ensures root.entries == Final(c)
    ensures root.log == old(root.log) + (Hide(PairsOf(c.plan), |q.paths|) + ([Move(MANIFEST_TEMP_NAME, INVENTORY_NAME)] + ClosingSteps(c.plan)))
  {
    ghost var log, n, ps := root.log, |q.paths|, PairsOf(c.plan);
    RetainedKept(c);
    ClosedIsFinal(c);
    QuarantinedControlsBound(c);
    CommittedControls(c);
    FinalSettles(c);
    CloseLog(log, Hide(ps, n), Move(MANIFEST_TEMP_NAME, INVENTORY_NAME), Drop(ps, n), Unlink(JOURNAL_NAME));
    assert InventoryOk(Final(c)) && Listed(Final(c)) == c.plan.after;
    assert MANIFEST_TEMP_NAME in AfterHiding(c, n) && c.record.Regular?;
    hide *;
    EquippedMeans(c, q.paths, q.operationId, items, snapshots, journalFile);
    QuarantineAll(root, q.paths, q.operationId, items, snapshots, oldFile, journalFile, c);
    HiddenSoFar(c, n, root.entries, root.log, log);
    var oldSame := root.NamedSnapshotIs(INVENTORY_NAME, oldFile);
    var journalSame := root.NamedSnapshotIs(JOURNAL_NAME, journalFile);
    var tempSame := root.NamedSnapshotIs(MANIFEST_TEMP_NAME, newFile);
    assert oldSame && journalSame && tempSame;
    root.Rename(MANIFEST_TEMP_NAME, INVENTORY_NAME);
    var newSame := root.NamedSnapshotIs(INVENTORY_NAME, newFile);
    assert newSame;
    ghost var committed := root.log;
    DropAll(root, q.paths, q.operationId, items, snapshots, newFile, journalFile, c);
    DroppedSoFar(c, n, root.entries, root.log, committed);
    assert forall a :: a in retained ==> a.path in snapshots;
    var retainedSame := RetainedUnchanged(root, retained, snapshots);
    assert retainedSame;
    DropJournal(root, newFile, journalFile);
    var final := root.ValidateInventory();
    assert final.Ok? && final.value.artifacts == retained && final.value.digest == ManifestDigest(retained);
  }

  lemma PreparedInHand(c: Commit, w: Partial, q: PruneRequest, root: Identity, lock: Identity, artifacts: seq<Artifact>,
                       items: map<string, Artifact>, snapshots: map<string, Snapshot>, file: Snapshot)
    requires Prepared(c, w, q, root, lock, artifacts, snapshots, file) && Covered(c.plan)
    requires DistinctPaths(artifacts) && items == ItemsByPath(artifacts)
    ensures InHand(c, q.operationId, items, snapshots)
  {
    forall i | 0 <= i < |c.plan.paths| ensures PathInHand(c, q.operationId, items, snapshots, i) {
      InHandOf(c, w, q, root, lock, artifacts, items, snapshots, file, i);
    }
  }

  lemma InHandOf(c: Commit, w: Partial, q: PruneRequest, root: Identity, lock: Identity, artifacts: seq<Artifact>,
                 items: map<string, Artifact>, snapshots: map<string, Snapshot>, file: Snapshot, i: nat)
    requires Prepared(c, w, q, root, lock, artifacts, snapshots, file) && Covered(c.plan) && i < |c.plan.paths|
    requires DistinctPaths(artifacts) && items == ItemsByPath(artifacts)
    ensures PathInHand(c, q.operationId, items, snapshots, i)
  {
    var path := c.plan.paths[i];
    assert path in SetOf(c.plan.paths) && path in PathsOf(c.plan.before);
    var k :| 0 <= k < |c.plan.before| && c.plan.before[k].path == path;
    hide OriginalOk, TempOk, PartialOk, QuarantineName, ValidManifest, Canonical, Retained, ManifestPayload, ControlNames, ArtifactName;
  }

  lemma AcceptedSnapshots(d: Directory, snapshots: map<string, Snapshot>)
    requires InventoryOk(d) && ReadsManifest(d) && snapshots.Keys == PathsOf(Listed(d))
    requires forall p :: p in snapshots ==> Bound(d, p, snapshots[p])
    ensures snapshots == SnapshotsOf(d, Listed(d)) && DistinctPaths(Listed(d))
  {
    ListingOk(d);
    MatchedSnapshots(d, Listed(d));
    hide *;
    SameSnapshots(d, Listed(d), snapshots);
    ManifestPathsDiffer(Listed(d));
  }

  lemma ManifestPathsDiffer(s: seq<Artifact>)
    requires ValidManifest(s)
    ensures DistinctPaths(s)
  {
  }

  lemma SameSnapshots(d: Directory, s: seq<Artifact>, snapshots: map<string, Snapshot>)
    requires snapshots.Keys == SnapshotsOf(d, s).Keys && forall p :: p in snapshots ==> Bound(d, p, snapshots[p])
    ensures snapshots == SnapshotsOf(d, s)
  {
    hide PathsOf, SnapshotOf;
  }

  lemma CommitForPrepared(d: Directory, q: PruneRequest, root: Identity, lock: Identity, w: Partial)
    requires ValidRequest(q) && Accepted(d, q) && q.paths != [] && w.manifest.Regular? && w.journal.Regular?
    requires IdentityRecord(root) && IdentityRecord(lock)
    ensures ReadsManifest(d) && d[INVENTORY_NAME].Regular?
    ensures Prepared(CommitFor(d, q, root, lock, w), w, q, root, lock, Listed(d), SnapshotsOf(d, Listed(d)), SnapshotOf(d[INVENTORY_NAME]))
  {
    var c, j := CommitFor(d, q, root, lock, w), JournalOf(d, q, root, lock, w);
    CommitForOk(d, q, root, lock, w);
    AcceptedReads(d, q);
    ListingOk(d);
    MatchedSnapshots(d, Listed(d));
    JournalOfOk(d, q, root, lock, w);
    JournalHasPlan(j, root, lock);
    JournalOfFields(d, q, root, lock, w);
    assert c == Commit(d, PlanOf(j), StagedFile(d, q.paths, w), w.journal.(content := Journal(j)));
    hide *;
    RetainedInMeans(d, q.paths);
    PlannedSnapshots(c.plan, j, SnapshotsOf(d, Listed(d)));
    PreparedJournal(c, j, q, root, lock, w, SnapshotsOf(d, Listed(d)));
    PreparedFrom(c, w, q, root, lock, Listed(d), SnapshotsOf(d, Listed(d)), SnapshotOf(d[INVENTORY_NAME]));
  }

  lemma PreparedFrom(c: Commit, w: Partial, q: PruneRequest, root: Identity, lock: Identity,
                     artifacts: seq<Artifact>, snapshots: map<string, Snapshot>, file: Snapshot)
    requires CommitOk(c) && PartialOk(c, w) && c.plan.paths == q.paths && c.plan.before == artifacts && c.plan.oldFile == file
    requires c.temp.content == ManifestPayload(Retained(artifacts, SetOf(q.paths))) && PathsOf(artifacts) <= snapshots.Keys && c.temp.Regular?
    requires c.record.content == Journal(JournalFor(q.operationId, q.cutoff, root, lock, artifacts, q.paths, file, SnapshotOf(c.temp), snapshots))
    requires snapshots.Keys == c.plan.bindings.Keys && (forall x :: x in snapshots ==> snapshots[x] == c.plan.bindings[x])
    requires forall i :: 0 <= i < |q.paths| ==> q.paths[i] in c.plan.quarantine && c.plan.quarantine[q.paths[i]] == QuarantineName(q.operationId, i)
    ensures Prepared(c, w, q, root, lock, artifacts, snapshots, file)
  {
    hide CommitOk, PartialOk, ManifestPayload, JournalFor, QuarantineName, SnapshotOf;
  }

  lemma PlannedSnapshots(p: Plan, j: PruneJournal, snapshots: map<string, Snapshot>)
    requires Describes(p, j) && snapshots.Keys == PathsOf(j.oldManifest) && j.bindings == BindingsFor(j.oldManifest, snapshots)
    ensures snapshots.Keys == p.bindings.Keys && (forall x :: x in snapshots ==> snapshots[x] == p.bindings[x])
    ensures forall i :: 0 <= i < |j.paths| ==> j.paths[i] in p.quarantine && p.quarantine[j.paths[i]] == QuarantineName(j.operationId, i)
    ensures p.before == j.oldManifest && p.oldFile == j.oldFile && p.paths == j.paths
  {
    hide QuarantineName;
    forall x | x in snapshots ensures snapshots[x] == p.bindings[x] {
      var k :| 0 <= k < |j.oldManifest| && j.oldManifest[k].path == x;
      assert j.bindings[k].snapshot == snapshots[x];
    }
    forall i | 0 <= i < |j.paths| ensures j.paths[i] in p.quarantine {
      assert j.paths[i] in SetOf(j.paths);
    }
  }

  lemma PreparedJournal(c: Commit, j: PruneJournal, q: PruneRequest, root: Identity, lock: Identity, w: Partial, snapshots: map<string, Snapshot>)
    requires UtcText(q.cutoff) && Accepted(c.original, q) && q.paths != [] && w.manifest.Regular? && j == JournalOf(c.original, q, root, lock, w)
    requires c.temp == StagedFile(c.original, q.paths, w) && snapshots == SnapshotsOf(c.original, Listed(c.original))
    ensures c.temp.Regular? && c.temp.content == ManifestPayload(RetainedIn(c.original, q.paths)) && j.operationId == q.operationId
    ensures ReadsManifest(c.original) && PathsOf(Listed(c.original)) <= snapshots.Keys
    ensures j == JournalFor(q.operationId, q.cutoff, root, lock, Listed(c.original), q.paths, SnapshotOf(c.original[INVENTORY_NAME]), SnapshotOf(c.temp), snapshots)
  {
    AcceptedReads(c.original, q);
    ListingOk(c.original);
    MatchedSnapshots(c.original, Listed(c.original));
    hide UtcText, Accepted, InventoryOk, Listed, Retained, Canonical, SnapshotOf, ManifestDigest, INVENTORY_NAME;
  }

  /** `prune_inventory`. `w` is what the two files it creates hold while they are being written, `journalFits` is
      whether the journal is within its size limit. */
  method PruneInventory(root: BackupRoot, q: PruneRequest, w: Partial, journalFits: bool) returns (r: Result<PruneReply>)
    requires LOCK_NAME in root.entries && ValidRequest(q) && w.manifest.Regular? && w.journal.Regular?
    requires IdentityRecord(root.root) && IdentityRecord(root.lock)
    modifies root
    ensures var s := RecoveryScript(old(root.entries), root.root, root.lock);
            var d := Run(old(root.entries), s.steps);
            && (r.Ok? <==> s.ok && Accepted(d, q) && (q.paths == [] || journalFits))
            && (r.Ok? ==> r.value == PruneReply(q.operationId, q.paths, ManifestDigest(RetainedIn(d, q.paths))))
            && if !s.ok || !Accepted(d, q) || q.paths == [] then
                 root.entries == d && root.log == old(root.log) + s.steps
               else
                 var c := CommitFor(d, q, root.root, root.lock, w);
                 && c.temp.Regular? && c.record.Regular? && Covered(c.plan)
                 && if journalFits then root.entries == Final(c) && root.log == old(root.log) + s.steps + PruneSteps(c, w)
                    else root.entries == d && root.log == old(root.log) + s.steps + AbandonSteps(c, w)
  {
    ghost var s := RecoveryScript(root.entries, root.root, root.lock);
    assert UtcText(q.cutoff);
    hide *;
    var recovered := RecoverIfNeeded(root);
    if !recovered { return Err(InventoryError("prune recovery failed")); }
    ghost var d, log := root.entries, root.log;
    var v := root.ValidateInventory();
    AcceptedMeans(d, q);
    if v.Err? { return Err(v.error); }
    if v.value.digest != q.expectedDigest { return Err(InventoryError("backup inventory digest changed")); }
    if q.paths != EligiblePaths(v.value.artifacts, q.cutoff) {
      return Err(InventoryError("backup prune paths do not exactly match the eligible inventory"));
    }
    var retained := Retained(v.value.artifacts, SetOf(q.paths));
    var reply := PruneReply(q.operationId, q.paths, ManifestDigest(retained));
    assert reply.digest == ManifestDigest(RetainedIn(d, q.paths)) by { RetainedInMeans(d, q.paths); }
    if q.paths == [] { return Ok(reply); }
    var ok := ExecutePrune(root, q, v.value, retained, w, journalFits);
    r := if ok then Ok(reply) else Err(InventoryError("prune journal is too large"));
  }

  lemma AcceptedMeans(d: Directory, q: PruneRequest)
    requires UtcText(q.cutoff)
    ensures Accepted(d, q) <==> InventoryOk(d) && ManifestDigest(Listed(d)) == q.expectedDigest && q.paths == EligiblePaths(Listed(d), q.cutoff)
  {
  }

  lemma RetainedInMeans(d: Directory, paths: seq<string>)
    ensures RetainedIn(d, paths) == Retained(Listed(d), SetOf(paths))
  {
  }

  lemma PreparedParts(c: Commit, w: Partial, q: PruneRequest, root: Identity, lock: Identity, artifacts: seq<Artifact>,
                      items: map<string, Artifact>, snapshots: map<string, Snapshot>, file: Snapshot)
    requires Prepared(c, w, q, root, lock, artifacts, snapshots, file) && Covered(c.plan) && InHand(c, q.operationId, items, snapshots)
    ensures CommitOk(c) && c.plan.paths == q.paths && file == c.plan.oldFile && Bound(c.original, INVENTORY_NAME, file)
    ensures c.temp.Regular? && c.record.Regular? && SnapshotOf(c.temp) == c.plan.newFile
    ensures snapshots.Keys == c.plan.bindings.Keys && forall x :: x in snapshots ==> snapshots[x] == c.plan.bindings[x]
    ensures forall p :: p in q.paths ==> p in items && p in snapshots && Revalidates(c.original, items[p], snapshots[p])
  {
    assert Bound(c.original, INVENTORY_NAME, file);
    forall p | p in q.paths ensures p in items && p in snapshots && Revalidates(c.original, items[p], snapshots[p]) {
      var i :| 0 <= i < |q.paths| && q.paths[i] == p;
      RevalidatesAt(c, q.operationId, items, snapshots, i);
    }
  }

  lemma RevalidatesAt(c: Commit, operationId: string, items: map<string, Artifact>, snapshots: map<string, Snapshot>, i: nat)
    requires CommitOk(c) && Covered(c.plan) && i < |c.plan.paths| && InHand(c, operationId, items, snapshots)
    ensures var p := c.plan.paths[i]; p in items && p in snapshots && Revalidates(c.original, items[p], snapshots[p])
  {
    var p := c.plan.paths[i];
    assert p in SetOf(c.plan.paths) && p in PathsOf(c.plan.before);
    assert Bound(c.original, p, c.plan.bindings[p]);
    hide CommitOk, Bound, QuarantineName;
    assert PathInHand(c, operationId, items, snapshots, i);
  }

  lemma PruneLog(c: Commit, w: Partial, log: seq<Step>)
    requires c.temp.Regular? && c.record.Regular? && Covered(c.plan)
    ensures log + (StageSteps(c, w) + [Move(JOURNAL_TEMP_NAME, JOURNAL_NAME)])
            + (Hide(PairsOf(c.plan), |c.plan.paths|) + ([Move(MANIFEST_TEMP_NAME, INVENTORY_NAME)] + ClosingSteps(c.plan)))
            == log + PruneSteps(c, w)
  {
    var s, m, h := StageSteps(c, w), [Move(JOURNAL_TEMP_NAME, JOURNAL_NAME)], Hide(PairsOf(c.plan), |c.plan.paths|);
    var z := [Move(MANIFEST_TEMP_NAME, INVENTORY_NAME)] + ClosingSteps(c.plan);
    assert PruneSteps(c, w) == s + m + h + z;
    hide *;
    FiveParts(log, s, m, h, z);
  }

  lemma FiveParts(log: seq<Step>, s: seq<Step>, m: seq<Step>, h: seq<Step>, z: seq<Step>)
    ensures log + (s + m) + (h + z) == log + (s + m + h + z)
  {
  }

  /** `prune_inventory` once its checks have passed and there is something to remove. */
  method ExecutePrune(root: BackupRoot, q: PruneRequest, v: Validated, retained: seq<Artifact>, w: Partial, journalFits: bool)
      returns (ok: bool)
    requires ValidRequest(q) && Accepted(root.entries, q) && q.paths != [] && w.manifest.Regular? && w.journal.Regular?
    requires IdentityRecord(root.root) && IdentityRecord(root.lock)
    requires v.artifacts == Listed(root.entries) && retained == RetainedIn(root.entries, q.paths)
    requires v.snapshots.Keys == PathsOf(v.artifacts) && forall p :: p in v.snapshots ==> Bound(root.entries, p, v.snapshots[p])
    requires v.file == if ReadsManifest(root.entries) then Some(SnapshotOf(root.entries[INVENTORY_NAME])) else None
    modifies root
    ensures var c := CommitFor(old(root.entries), q, root.root, root.lock, w);
            && c.temp.Regular? && c.record.Regular? && Covered(c.plan) && ok == journalFits
            && if ok then root.entries == Final(c) && root.log == old(root.log) + PruneSteps(c, w)
               else root.entries == old(root.entries) && root.log == old(root.log) + AbandonSteps(c, w)
  {
    ghost var d, log := root.entries, root.log;
    ghost var c := CommitFor(d, q, root.root, root.lock, w);
    CommitForPrepared(d, q, root.root, root.lock, w);
    CommitForOk(d, q, root.root, root.lock, w);
    AcceptedReads(d, q);
    AcceptedSnapshots(d, v.snapshots);
    CommitCovered(c);
    var items := ItemsByPath(v.artifacts);
    var file := v.file.value;
    PreparedInHand(c, w, q, root.root, root.lock, v.artifacts, items, v.snapshots, file);
    PreparedParts(c, w, q, root.root, root.lock, v.artifacts, items, v.snapshots, file);
    hide *;
    var valid := RevalidateAll(root, q.paths, items, v.snapshots);
    var manifestSame := root.NamedSnapshotIs(INVENTORY_NAME, file);
    assert valid && manifestSame;
    var staged := Stage(root, q, v.artifacts, v.snapshots, file, w, journalFits, c);
    if staged.Err? { return false; }
    CommitAndClose(root, q, items, v.snapshots, retained, file, staged.value.0, staged.value.1, c);
    PruneLog(c, w, log);
    ok := true;
  }
}
