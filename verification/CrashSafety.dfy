/** Crash safety of a prune: every directory a crash can leave belongs to a phase, recovery moves only within
    and out of phases, and the phase fixes what recovery ends with. */
module CrashSafety {
  import opened Basics
  import opened Ordering
  import opened Inventory
  import opened BackupDirectory
  import opened PruneJournals
  import opened Relocation
  import opened Recovery

  /** One prune: the directory it starts from, its plan, the staged manifest file and the journal file. */
  datatype Commit = Commit(original: Directory, plan: Plan, temp: Entry, record: Entry)

  /** The directory after the prune has run to its end. */
  function Final(c: Commit): Directory {
    (c.original - SetOf(c.plan.paths))[INVENTORY_NAME := c.temp]
  }

  /** The journal left over the original directory after the staged manifest is gone. */
  function Stranded(c: Commit): Directory {
    c.original[JOURNAL_NAME := c.record]
  }

  ghost predicate RecordOk(c: Commit, root: Identity, lock: Identity) {
    && c.record.Regular? && c.record.content.Journal?
    && JournalOk(c.record.content.journal, root, lock)
    && Describes(c.plan, c.record.content.journal)
  }

  ghost predicate OriginalOk(c: Commit) {
    && ReadsManifest(c.original) && ValidManifest(c.original[INVENTORY_NAME].content.artifacts)
    && SnapshotOf(c.original[INVENTORY_NAME]) == c.plan.oldFile && Listed(c.original) == c.plan.before
    && c.original.Keys == {LOCK_NAME, INVENTORY_NAME} + PathsOf(c.plan.before)
    && c.plan.bindings.Keys == PathsOf(c.plan.before)
    && forall x :: x in PathsOf(c.plan.before) ==> Bound(c.original, x, c.plan.bindings[x])
  }

  ghost predicate TempOk(c: Commit) {
    && c.temp.Regular? && SnapshotOf(c.temp) == c.plan.newFile && c.temp.content == Manifest(c.plan.after, 0)
  }

  ghost predicate CommitOk(c: Commit) {
    PlanOk(c.plan) && OriginalOk(c) && TempOk(c) && c.record.Regular?
  }

  // ----- Phases -----

  /** Nothing published: the original directory and perhaps the two temporary files, with any content. */
  ghost predicate Staging(c: Commit, d: Directory) {
    && JOURNAL_NAME !in d
    && (forall x :: x != MANIFEST_TEMP_NAME && x != JOURNAL_TEMP_NAME ==> SameAt(c.original, d, x))
    && (MANIFEST_TEMP_NAME in d ==> d[MANIFEST_TEMP_NAME].Regular?)
    && (JOURNAL_TEMP_NAME in d ==> d[JOURNAL_TEMP_NAME].Regular?)
  }

  ghost predicate Journalled(c: Commit, d: Directory) {
    JOURNAL_NAME in d && d[JOURNAL_NAME] == c.record && SameAt(c.original, d, LOCK_NAME)
  }

  /** Journal published, old manifest in place: recovery rolls back. */
  ghost predicate RollingBack(c: Commit, d: Directory)
    requires Covered(c.plan)
  {
    Journalled(c, d) && SameAt(c.original, d, INVENTORY_NAME) && Recoverable(d, c.plan, Before)
  }

  /** New manifest in place: recovery rolls forward. */
  ghost predicate RollingForward(c: Commit, d: Directory)
    requires Covered(c.plan)
  {
    Journalled(c, d) && INVENTORY_NAME in d && d[INVENTORY_NAME] == c.temp && Recoverable(d, c.plan, After)
  }

  lemma BoundIdentifies(d: Directory, e: Directory, x: string, y: string, s: Snapshot)
    requires Bound(d, x, s) && Bound(e, y, s)
    ensures x in d && y in e && d[x] == e[y]
  {
    SnapshotIdentifies(d[x], e[y]);
  }

  lemma OriginalHasNoExtras(c: Commit)
    requires CommitOk(c)
    ensures JOURNAL_NAME !in c.original && JOURNAL_TEMP_NAME !in c.original && MANIFEST_TEMP_NAME !in c.original
    ensures forall x :: x in c.plan.quarantine.Values ==> x !in c.original
    ensures LOCK_NAME in c.original
  {
    hide ValidManifest, Canonical, Retained, ArtifactName, ManifestPayload;
    ControlNamesDiffer();
    forall x | x in PathsOf(c.plan.before) ensures x !in ControlNames() && x !in c.plan.quarantine.Values {
      PathIsArtifact(c.plan, x);
    }
  }

  lemma OriginalNames(c: Commit, x: string)
    requires OriginalOk(c) && x in c.original
    ensures x == LOCK_NAME || x == INVENTORY_NAME || x in PathsOf(c.plan.before)
  {
    hide Bound, ReadsManifest, ValidManifest, Listed, PathsOf, LOCK_NAME, INVENTORY_NAME;
    assert x in c.original.Keys;
  }

  lemma RollbackRestoresAt(c: Commit, d: Directory, e: Directory, x: string)
    requires CommitOk(c) && RollingBack(c, d) && RollbackResult(d, e, c.plan)
    ensures SameAt(c.original, e, x)
  {
    OriginalHasNoExtras(c);
    assert Covered(c.plan);
    hide PlanOk, PathsOf, ValidManifest, Canonical, Recoverable, RecoverySteps, Bound, SnapshotOf, TempOk, ReadsManifest, Listed, INVENTORY_NAME, LOCK_NAME, JOURNAL_NAME, JOURNAL_TEMP_NAME, MANIFEST_TEMP_NAME;
    if x in PathsOf(c.plan.before) {
      BoundIdentifies(e, c.original, x, x, c.plan.bindings[x]);
    } else {
      assert SameAt(d, e, INVENTORY_NAME) && SameAt(d, e, LOCK_NAME);
      if x in c.original { OriginalNames(c, x); }
    }
  }

  /** What a completed rollback yields is the original directory, entry by entry. */
  lemma RollbackRestores(c: Commit, d: Directory)
    requires CommitOk(c) && RollingBack(c, d)
    ensures Run(d, RecoverySteps(d, c.plan, Before)) == c.original
  {
    hide RecoverySteps, Recoverable, OriginalOk, TempOk;
    var e := Run(d, RecoverySteps(d, c.plan, Before));
    RollbackEffect(d, c.plan);
    hide PlanOk, RollbackResult;
    forall x ensures SameAt(c.original, e, x) { RollbackRestoresAt(c, d, e, x); }
    SameMaps(c.original, e);
  }

  lemma FinalAt(c: Commit, x: string)
    ensures x == INVENTORY_NAME ==> x in Final(c) && Final(c)[x] == c.temp
    ensures x != INVENTORY_NAME && c.plan.Removes(x) ==> x !in Final(c)
    ensures x != INVENTORY_NAME && !c.plan.Removes(x) ==> SameAt(c.original, Final(c), x)
  {
    hide INVENTORY_NAME;
  }

  /** The committed directory has no other names. */
  lemma FinalNames(c: Commit, x: string)
    requires CommitOk(c) && x != INVENTORY_NAME && x != LOCK_NAME
    ensures x in Final(c) <==> x in PathsOf(c.plan.before) && !c.plan.Removes(x)
  {
    FinalAt(c, x);
    hide Final, PlanOk, TempOk, Bound, ReadsManifest, ValidManifest, Listed, PathsOf, LOCK_NAME, INVENTORY_NAME;
    if x in c.original { OriginalNames(c, x); }
  }

  lemma ForwardCommitsAt(c: Commit, d: Directory, e: Directory, x: string)
    requires CommitOk(c) && RollingForward(c, d) && ForwardResult(d, e, c.plan)
    ensures SameAt(Final(c), e, x)
  {
    OriginalHasNoExtras(c);
    NamesKept(c);
    FinalAt(c, x);
    assert Covered(c.plan);
    hide PlanOk, PathsOf, SetOf, ValidManifest, Canonical, Recoverable, RecoverySteps, Bound, SnapshotOf, TempOk, ReadsManifest, Listed,
      INVENTORY_NAME, LOCK_NAME, JOURNAL_NAME, JOURNAL_TEMP_NAME, MANIFEST_TEMP_NAME, Final;
    InSetOf(c.plan.paths, x);
    if x == INVENTORY_NAME || x == LOCK_NAME {
      assert SameAt(d, e, x);
    } else {
      assert x in Final(c) <==> x in PathsOf(c.plan.before) && !c.plan.Removes(x) by { FinalNames(c, x); }
      if x in PathsOf(c.plan.before) && !c.plan.Removes(x) {
        BoundIdentifies(e, c.original, x, x, c.plan.bindings[x]);
      }
    }
  }

  lemma InSetOf(s: seq<string>, x: string)
    ensures x in SetOf(s) <==> x in s
  {
  }

  /** What a completed roll forward yields is the committed directory, entry by entry. */
  lemma ForwardCommits(c: Commit, d: Directory)
    requires CommitOk(c) && RollingForward(c, d)
    ensures Run(d, RecoverySteps(d, c.plan, After)) == Final(c)
  {
    hide RecoverySteps, Recoverable, OriginalOk, TempOk;
    var e := Run(d, RecoverySteps(d, c.plan, After));
    ForwardEffect(d, c.plan);
    hide PlanOk, ForwardResult;
    forall x ensures SameAt(Final(c), e, x) { ForwardCommitsAt(c, d, e, x); }
    SameMaps(Final(c), e);
  }

  lemma NamesKept(c: Commit)
    requires CommitOk(c)
    ensures INVENTORY_NAME !in SetOf(c.plan.paths) && LOCK_NAME !in SetOf(c.plan.paths)
  {
    hide ValidManifest, Canonical, Retained, ArtifactName, ManifestPayload;
    forall x | x in SetOf(c.plan.paths) ensures x !in ControlNames() { PathIsArtifact(c.plan, x); }
  }

  // ----- What recovery decides in each phase -----

  /** A prune always takes something away, so the two manifests differ. */
  lemma ManifestsDiffer(p: Plan)
    requires PlanOk(p)
    ensures p.before != p.after
  {
    hide ValidManifest, Canonical, ManifestPayload, ArtifactName;
    RetainedMembers(p.before, SetOf(p.paths));
    var x := p.paths[0];
    assert x in SetOf(p.paths);
    var k :| 0 <= k < |p.before| && p.before[k].path == x;
    assert p.before[k] in p.before && p.before[k] !in p.after;
  }

  /** With the journal of the prune in place, recovery follows the plan of the prune. */
  lemma FollowsPlan(c: Commit, d: Directory, root: Identity, lock: Identity)
    requires PlanOk(c.plan) && RecordOk(c, root, lock) && JOURNAL_NAME in d && d[JOURNAL_NAME] == c.record
    ensures Covered(c.plan) && RecoveryScript(d, root, lock) == PlanScript(d, c.plan)
  {
    assert Covered(c.plan);
    hide PlanOk, JournalOk, Describes, JournalScript, PlanScript, INVENTORY_NAME, LOCK_NAME, JOURNAL_NAME, JOURNAL_TEMP_NAME, MANIFEST_TEMP_NAME;
    var j := c.record.content.journal;
    assert RecoveryScript(d, root, lock) == JournalScript(d, j, root, lock);
    ScriptOfPlan(d, j, c.plan, root, lock);
  }

  /** Under a valid journal, recovery follows the plan that the journal describes. */
  lemma ScriptOfPlan(d: Directory, j: PruneJournal, p: Plan, root: Identity, lock: Identity)
    requires JournalOk(j, root, lock) && Describes(p, j)
    ensures PlanOk(p) && Covered(p) && JournalScript(d, j, root, lock) == PlanScript(d, p)
  {
    DescribedPlanOk(p, j, root, lock);
    JournalHasPlan(j, root, lock);
    assert Covered(p);
    hide JournalOk, PlanOk, PlanScript;
    DescribesUnique(p, PlanOf(j), j);
  }

  lemma OldSide(c: Commit, d: Directory)
    requires CommitOk(c) && SameAt(c.original, d, INVENTORY_NAME)
    ensures ManifestSide(d, c.plan) == Some(Before)
  {
    hide PlanOk, ValidManifest, INVENTORY_NAME, LOCK_NAME;
  }

  lemma NewSide(c: Commit, d: Directory)
    requires CommitOk(c) && INVENTORY_NAME in d && d[INVENTORY_NAME] == c.temp
    ensures ManifestSide(d, c.plan) == Some(After)
  {
    assert PlanOk(c.plan) && TempOk(c);
    hide *;
    ManifestsDiffer(c.plan);
    PlanCanonical(c.plan);
    StagedSide(c, d);
  }

  lemma PlanCanonical(p: Plan)
    requires PlanOk(p)
    ensures ValidManifest(p.after) && Canonical(p.after) == p.after
  {
  }

  lemma StagedSide(c: Commit, d: Directory)
    requires TempOk(c) && INVENTORY_NAME in d && d[INVENTORY_NAME] == c.temp && c.plan.before != c.plan.after
    requires ValidManifest(c.plan.after) && Canonical(c.plan.after) == c.plan.after
    ensures ManifestSide(d, c.plan) == Some(After)
  {
    hide ValidManifest, Canonical, SnapshotOf, INVENTORY_NAME;
  }

  lemma RollingBackScript(c: Commit, d: Directory, root: Identity, lock: Identity)
    requires CommitOk(c) && RecordOk(c, root, lock) && RollingBack(c, d)
    ensures RecoveryScript(d, root, lock) == Script(RecoverySteps(d, c.plan, Before), true)
  {
    OldSide(c, d);
    FollowsPlan(c, d, root, lock);
  }

  lemma RollingForwardScript(c: Commit, d: Directory, root: Identity, lock: Identity)
    requires CommitOk(c) && RecordOk(c, root, lock) && RollingForward(c, d)
    ensures RecoveryScript(d, root, lock) == Script(RecoverySteps(d, c.plan, After), true)
  {
    NewSide(c, d);
    FollowsPlan(c, d, root, lock);
  }

  lemma StrandedFacts(c: Commit)
    requires CommitOk(c)
    ensures var d := Stranded(c);
            && SameAt(c.original, d, INVENTORY_NAME) && MANIFEST_TEMP_NAME !in d
            && JOURNAL_NAME in d && d[JOURNAL_NAME] == c.record
            && forall x :: x in c.original ==> SameAt(c.original, d, x)
  {
    OriginalHasNoExtras(c);
    ControlNamesDiffer();
    hide CommitOk, INVENTORY_NAME, LOCK_NAME, JOURNAL_NAME, JOURNAL_TEMP_NAME, MANIFEST_TEMP_NAME;
  }

  /** The stranded directory: recovery rejects it and changes nothing, although the old manifest and every old
      artifact are untouched. */
  lemma StrandedIsRejected(c: Commit, root: Identity, lock: Identity)
    requires CommitOk(c) && RecordOk(c, root, lock)
    ensures RecoveryScript(Stranded(c), root, lock) == Script([], false)
    ensures forall x :: x in c.original ==> SameAt(c.original, Stranded(c), x)
  {
    StrandedFacts(c);
    assert Covered(c.plan);
    hide INVENTORY_NAME, LOCK_NAME, JOURNAL_NAME, JOURNAL_TEMP_NAME, MANIFEST_TEMP_NAME, ControlNames,
      RecordOk, RecoveryScript, PlanScript, PlanOk, OriginalOk, TempOk, SameAt, Stranded;
    OldSide(c, Stranded(c));
    FollowsPlan(c, Stranded(c), root, lock);
    NothingStaged(c.plan, Stranded(c));
  }

  /** Without the staged manifest a rollback is refused. */
  lemma NothingStaged(p: Plan, d: Directory)
    requires Covered(p) && ManifestSide(d, p) == Some(Before) && MANIFEST_TEMP_NAME !in d
    ensures PlanScript(d, p) == Script([], false)
  {
    hide ManifestSide, ItemsOk, PathsOf, SetOf, INVENTORY_NAME, LOCK_NAME, JOURNAL_NAME, JOURNAL_TEMP_NAME, MANIFEST_TEMP_NAME;
    assert !Recoverable(d, p, Before);
  }

  /** Removals of temporary files touch nothing else. */
  lemma {:induction false} CleanupRuns(d: Directory, s: seq<Step>)
    requires forall i :: 0 <= i < |s| ==> s[i] == Unlink(JOURNAL_TEMP_NAME) || s[i] == Unlink(MANIFEST_TEMP_NAME)
    ensures forall x :: x != JOURNAL_TEMP_NAME && x != MANIFEST_TEMP_NAME ==> SameAt(d, Run(d, s), x)
    ensures forall x :: x in Run(d, s) ==> x in d && Run(d, s)[x] == d[x]
    ensures forall x :: Unlink(x) in s ==> x !in Run(d, s)
  {
    hide JOURNAL_TEMP_NAME, MANIFEST_TEMP_NAME;
    if |s| > 0 {
      var t := s[..|s| - 1];
      CleanupRuns(d, t);
      RunSnoc(d, t, s[|s| - 1]);
      assert s == t + [s[|s| - 1]];
      var e, f := Run(d, t), Run(d, s);
      hide Run;
      forall x | x != JOURNAL_TEMP_NAME && x != MANIFEST_TEMP_NAME ensures SameAt(d, f, x) { assert SameAt(d, e, x); }
    }
  }

  lemma CleanupLists(d: Directory)
    ensures var s := RemoveIfPresent(d, JOURNAL_TEMP_NAME) + RemoveIfPresent(d, MANIFEST_TEMP_NAME);
            && (forall i :: 0 <= i < |s| ==> s[i] == Unlink(JOURNAL_TEMP_NAME) || s[i] == Unlink(MANIFEST_TEMP_NAME))
            && (MANIFEST_TEMP_NAME in d ==> Unlink(MANIFEST_TEMP_NAME) in s)
            && (JOURNAL_TEMP_NAME in d ==> Unlink(JOURNAL_TEMP_NAME) in s)
  {
    hide JOURNAL_TEMP_NAME, MANIFEST_TEMP_NAME;
  }

  lemma StagingScript(c: Commit, d: Directory, root: Identity, lock: Identity)
    requires Staging(c, d)
    ensures RecoveryScript(d, root, lock) == Script(RemoveIfPresent(d, JOURNAL_TEMP_NAME) + RemoveIfPresent(d, MANIFEST_TEMP_NAME), true)
  {
  }

  /** Cleaning up before publication restores the original, and any part of it keeps the phase. */
  lemma StagingRecovers(c: Commit, d: Directory, root: Identity, lock: Identity, k: nat)
    requires CommitOk(c) && Staging(c, d) && k <= |RecoveryScript(d, root, lock).steps|
    ensures var s := RecoveryScript(d, root, lock);
            s.ok && Run(d, s.steps) == c.original && Staging(c, Run(d, s.steps[..k]))
  {
    OriginalHasNoExtras(c);
    StagingScript(c, d, root, lock);
    CleanupLists(d);
    hide *;
    StagingRuns(c, d, RemoveIfPresent(d, JOURNAL_TEMP_NAME) + RemoveIfPresent(d, MANIFEST_TEMP_NAME), k);
  }

  lemma StagingRuns(c: Commit, d: Directory, s: seq<Step>, k: nat)
    requires Staging(c, d) && k <= |s|
    requires JOURNAL_NAME !in c.original && JOURNAL_TEMP_NAME !in c.original && MANIFEST_TEMP_NAME !in c.original
    requires forall i :: 0 <= i < |s| ==> s[i] == Unlink(JOURNAL_TEMP_NAME) || s[i] == Unlink(MANIFEST_TEMP_NAME)
    requires MANIFEST_TEMP_NAME in d ==> Unlink(MANIFEST_TEMP_NAME) in s
    requires JOURNAL_TEMP_NAME in d ==> Unlink(JOURNAL_TEMP_NAME) in s
    ensures Run(d, s) == c.original && Staging(c, Run(d, s[..k]))
  {
    hide Staging, Run, INVENTORY_NAME, LOCK_NAME, JOURNAL_NAME, JOURNAL_TEMP_NAME, MANIFEST_TEMP_NAME;
    CleanupRuns(d, s);
    StagingCleaned(c, d, Run(d, s));
    StagingShrinks(c, d, s[..k]);
  }

  lemma StagingCleaned(c: Commit, d: Directory, e: Directory)
    requires Staging(c, d)
    requires JOURNAL_NAME !in c.original && JOURNAL_TEMP_NAME !in c.original && MANIFEST_TEMP_NAME !in c.original
    requires forall x :: x != JOURNAL_TEMP_NAME && x != MANIFEST_TEMP_NAME ==> SameAt(d, e, x)
    requires forall x :: x in e ==> x in d
    requires MANIFEST_TEMP_NAME in d ==> MANIFEST_TEMP_NAME !in e
    requires JOURNAL_TEMP_NAME in d ==> JOURNAL_TEMP_NAME !in e
    ensures e == c.original
  {
    hide INVENTORY_NAME, LOCK_NAME, JOURNAL_NAME, JOURNAL_TEMP_NAME, MANIFEST_TEMP_NAME;
    forall x ensures SameAt(c.original, e, x) {
      if x != MANIFEST_TEMP_NAME && x != JOURNAL_TEMP_NAME { assert SameAt(c.original, d, x) && SameAt(d, e, x); }
    }
    SameMaps(c.original, e);
  }

  lemma StagingShrinks(c: Commit, d: Directory, s: seq<Step>)
    requires Staging(c, d)
    requires forall i :: 0 <= i < |s| ==> s[i] == Unlink(JOURNAL_TEMP_NAME) || s[i] == Unlink(MANIFEST_TEMP_NAME)
    ensures Staging(c, Run(d, s))
  {
    ControlNamesDiffer();
    hide Run, INVENTORY_NAME, LOCK_NAME, JOURNAL_NAME, JOURNAL_TEMP_NAME, MANIFEST_TEMP_NAME;
    CleanupRuns(d, s);
    var e := Run(d, s);
    forall x | x != MANIFEST_TEMP_NAME && x != JOURNAL_TEMP_NAME ensures SameAt(c.original, e, x) {
      assert SameAt(c.original, d, x) && SameAt(d, e, x);
    }
  }

  // ----- Prefixes of recovery -----

  /** Moving some first files back keeps the directory in the rollback phase. */
  lemma RestoreKeepsItem(d: Directory, e: Directory, p: Plan, m: nat, x: string)
    requires PlanOk(p) && Recoverable(d, p, Before) && m <= |p.paths| && Placed(d, PairsOf(p))
    requires RestoredUpTo(d, e, PairsOf(p), m) && x in PathsOf(p.before)
    ensures ItemOk(e, p, Before, x)
  {
    hide ValidManifest, Canonical, Retained, ArtifactName, ManifestPayload, SnapshotOf;
    var ps := PairsOf(p);
    assert ItemOk(d, p, Before, x);
    if p.Removes(x) {
      PairsApart(p);
      var i :| 0 <= i < |p.paths| && p.paths[i] == x;
      assert ps[i] == Pair(x, p.quarantine[x]);
      if i >= m {
        NotTouchedBefore(ps, m, i);
        assert SameAt(d, e, ps[i].path) && SameAt(d, e, ps[i].hidden);
      }
    } else {
      OutsidePairs(p, m, x);
      assert SameAt(d, e, x);
    }
  }

  lemma NotTouchedBefore(ps: seq<Pair>, m: nat, i: nat)
    requires Apart(ps) && m <= i < |ps|
    ensures !Touches(ps, m, ps[i].path) && !Touches(ps, m, ps[i].hidden)
  {
  }

  lemma RestoreKeepsName(d: Directory, e: Directory, p: Plan, m: nat, x: string)
    requires PlanOk(p) && Recoverable(d, p, Before) && m <= |p.paths| && Placed(d, PairsOf(p))
    requires RestoredUpTo(d, e, PairsOf(p), m) && x in e
    ensures x in {LOCK_NAME, INVENTORY_NAME, JOURNAL_NAME, MANIFEST_TEMP_NAME} + PathsOf(p.before) + p.quarantine.Values
  {
    hide ValidManifest, Canonical, Retained, ArtifactName, ManifestPayload, ItemsOk,
      INVENTORY_NAME, LOCK_NAME, JOURNAL_NAME, JOURNAL_TEMP_NAME, MANIFEST_TEMP_NAME;
    var ps := PairsOf(p);
    if Touches(ps, m, x) {
      var i :| 0 <= i < m && (x == ps[i].path || x == ps[i].hidden);
      assert x == p.paths[i] && x in SetOf(p.paths);
    } else {
      assert SameAt(d, e, x);
      assert x in d.Keys;
    }
  }

  lemma RestoreKeepsPhase(c: Commit, d: Directory, m: nat)
    requires CommitOk(c) && RollingBack(c, d) && m <= |c.plan.paths|
    ensures RollingBack(c, Run(d, Restore(d, PairsOf(c.plan), m)))
  {
    var ps := PairsOf(c.plan);
    PairsApart(c.plan);
    RecoverablePlaced(d, c.plan);
    RestoreImage(d, ps, m);
    RestoredKeepsPhase(c, d, Run(d, Restore(d, ps, m)), m);
  }

  lemma RestoredKeepsPhase(c: Commit, d: Directory, e: Directory, m: nat)
    requires CommitOk(c) && RollingBack(c, d) && m <= |c.plan.paths|
    requires Placed(d, PairsOf(c.plan)) && RestoredUpTo(d, e, PairsOf(c.plan), m)
    ensures RollingBack(c, e)
  {
    hide ValidManifest, Canonical, Retained, ArtifactName, ManifestPayload, OriginalOk, TempOk, ItemOk, ControlNames, INVENTORY_NAME, LOCK_NAME, JOURNAL_NAME, JOURNAL_TEMP_NAME, MANIFEST_TEMP_NAME;
    ControlsAt(d, e, c.plan, m);
    ControlsHere();
    assert Covered(c.plan);
    forall x | x in PathsOf(c.plan.before) ensures ItemOk(e, c.plan, Before, x) { RestoreKeepsItem(d, e, c.plan, m, x); }
    forall x | x in e ensures x in {LOCK_NAME, INVENTORY_NAME, JOURNAL_NAME, MANIFEST_TEMP_NAME} + PathsOf(c.plan.before) + c.plan.quarantine.Values {
      RestoreKeepsName(d, e, c.plan, m, x);
    }
    hide PlanOk, OriginalOk, TempOk, RestoredUpTo, Placed, PathsOf, ItemOk, ControlNames, INVENTORY_NAME, LOCK_NAME, JOURNAL_NAME, JOURNAL_TEMP_NAME, MANIFEST_TEMP_NAME;
    assert SameAt(d, e, JOURNAL_NAME) && SameAt(d, e, INVENTORY_NAME) && SameAt(d, e, LOCK_NAME);
    assert SameAt(d, e, MANIFEST_TEMP_NAME) && SameAt(d, e, JOURNAL_TEMP_NAME);
  }

  lemma SweepKeepsItem(d: Directory, e: Directory, p: Plan, m: nat, x: string)
    requires PlanOk(p) && Recoverable(d, p, After) && m <= |p.paths|
    requires SweptUpTo(d, e, PairsOf(p), m) && x in PathsOf(p.before)
    ensures ItemOk(e, p, After, x)
  {
    hide ValidManifest, Canonical, Retained, ArtifactName, ManifestPayload, SnapshotOf;
    var ps := PairsOf(p);
    assert ItemOk(d, p, After, x);
    if p.Removes(x) {
      PairsApart(p);
      var i :| 0 <= i < |p.paths| && p.paths[i] == x;
      assert ps[i] == Pair(x, p.quarantine[x]);
      if i >= m {
        NotTouchedBefore(ps, m, i);
        assert SameAt(d, e, ps[i].path) && SameAt(d, e, ps[i].hidden);
      } else {
        assert SameAt(d, e, ps[i].path);
      }
    } else {
      OutsidePairs(p, m, x);
      assert SameAt(d, e, x);
    }
  }

  lemma SweepKeepsName(d: Directory, e: Directory, p: Plan, m: nat, x: string)
    requires PlanOk(p) && m <= |p.paths| && SweptUpTo(d, e, PairsOf(p), m) && x in e
    ensures x in d
  {
    hide ValidManifest, Canonical, Retained, ArtifactName, ManifestPayload;
    var ps := PairsOf(p);
    if Touches(ps, m, x) {
      var i :| 0 <= i < m && (x == ps[i].path || x == ps[i].hidden);
      assert SameAt(d, e, ps[i].path);
    } else {
      assert SameAt(d, e, x);
    }
  }

  lemma SweepKeepsPhase(c: Commit, d: Directory, m: nat)
    requires CommitOk(c) && RollingForward(c, d) && m <= |c.plan.paths|
    ensures RollingForward(c, Run(d, Sweep(d, PairsOf(c.plan), m)))
  {
    var ps := PairsOf(c.plan);
    PairsApart(c.plan);
    SweepImage(d, ps, m);
    SweptKeepsPhase(c, d, Run(d, Sweep(d, ps, m)), m);
  }

  lemma SweptKeepsPhase(c: Commit, d: Directory, e: Directory, m: nat)
    requires CommitOk(c) && RollingForward(c, d) && m <= |c.plan.paths| && SweptUpTo(d, e, PairsOf(c.plan), m)
    ensures RollingForward(c, e)
  {
    hide ValidManifest, Canonical, Retained, ArtifactName, ManifestPayload, OriginalOk, TempOk, ItemOk, ControlNames, INVENTORY_NAME, LOCK_NAME, JOURNAL_NAME, JOURNAL_TEMP_NAME, MANIFEST_TEMP_NAME;
    ControlsAt(d, e, c.plan, m);
    ControlsHere();
    assert Covered(c.plan);
    forall x | x in PathsOf(c.plan.before) ensures ItemOk(e, c.plan, After, x) { SweepKeepsItem(d, e, c.plan, m, x); }
    forall x | x in e ensures x in d { SweepKeepsName(d, e, c.plan, m, x); }
    assert e.Keys <= d.Keys;
    hide PlanOk, OriginalOk, TempOk, SweptUpTo, PathsOf, ItemOk, ControlNames, INVENTORY_NAME, LOCK_NAME, JOURNAL_NAME, JOURNAL_TEMP_NAME, MANIFEST_TEMP_NAME;
    assert SameAt(d, e, JOURNAL_NAME) && SameAt(d, e, INVENTORY_NAME) && SameAt(d, e, LOCK_NAME);
    assert SameAt(d, e, MANIFEST_TEMP_NAME) && SameAt(d, e, JOURNAL_TEMP_NAME);
  }

  lemma CommitCovered(c: Commit)
    requires CommitOk(c)
    ensures Covered(c.plan) && c.plan.quarantine.Keys == SetOf(c.plan.paths) && c.plan.bindings.Keys == PathsOf(c.plan.before)
    ensures c.temp.Regular? && c.record.Regular?
  {
  }

  lemma RecoveryLists(d: Directory, p: Plan)
    requires p.quarantine.Keys == SetOf(p.paths)
    ensures RecoverySteps(d, p, Before) == Restore(d, PairsOf(p), |p.paths|) + [Unlink(MANIFEST_TEMP_NAME)] + [Unlink(JOURNAL_NAME)]
    ensures RecoverySteps(d, p, After) == Sweep(d, PairsOf(p), |p.paths|) + [Unlink(JOURNAL_NAME)]
  {
    hide Restore, Sweep, SetOf, JOURNAL_NAME, MANIFEST_TEMP_NAME;
  }

  /** Stopping a rollback after any number of steps leaves the rollback phase, the stranded directory or the
      original. The stranded one comes exactly after the removal of the staged manifest. */
  lemma RollbackStops(c: Commit, d: Directory, k: nat)
    requires CommitOk(c) && RollingBack(c, d) && k <= |RecoverySteps(d, c.plan, Before)|
    ensures var s := RecoverySteps(d, c.plan, Before);
            var e := Run(d, s[..k]);
            if k == |s| then e == c.original
            else if k == |s| - 1 then e == Stranded(c)
            else RollingBack(c, e)
  {
    hide *;
    CommitCovered(c);
    RecoveryLists(d, c.plan);
    var ps, n, s := PairsOf(c.plan), |c.plan.paths|, RecoverySteps(d, c.plan, Before);
    var r, u, v := Restore(d, ps, n), [Unlink(MANIFEST_TEMP_NAME)], [Unlink(JOURNAL_NAME)];
    if k == |s| {
      assert s[..k] == s;
      RollbackRestores(c, d);
    } else if k == |s| - 1 {
      PrefixOfAppend(r + u, v, k);
      assert (r + u)[..k] == r + u;
      RollbackGap(c, d);
    } else {
      PrefixOfAppend(r + u, v, k);
      PrefixOfAppend(r, u, k);
      var m := RestorePrefix(d, ps, n, k);
      RestoreKeepsPhase(c, d, m);
    }
  }

  lemma RollbackGap(c: Commit, d: Directory)
    requires CommitOk(c) && RollingBack(c, d)
    ensures Run(d, Restore(d, PairsOf(c.plan), |c.plan.paths|) + [Unlink(MANIFEST_TEMP_NAME)]) == Stranded(c)
  {
    var r := Restore(d, PairsOf(c.plan), |c.plan.paths|);
    var g := r + [Unlink(MANIFEST_TEMP_NAME)];
    assert RecoverySteps(d, c.plan, Before) == g + [Unlink(JOURNAL_NAME)];
    RollbackRestores(c, d);
    RestoreKeepsPhase(c, d, |c.plan.paths|);
    hide PlanOk, OriginalOk, TempOk, Recoverable, PathsOf, SetOf, Restore, SameAt, INVENTORY_NAME, LOCK_NAME, JOURNAL_NAME, JOURNAL_TEMP_NAME, MANIFEST_TEMP_NAME;
    RunSnoc(d, g, Unlink(JOURNAL_NAME));
    RunSnoc(d, r, Unlink(MANIFEST_TEMP_NAME));
    GapImage(c, Run(d, r));
  }

  /** Taking the staged manifest and then the journal off yields the original, so in between only the journal is extra. */
  lemma GapImage(c: Commit, f: Directory)
    requires JOURNAL_NAME in f && f[JOURNAL_NAME] == c.record
    requires Apply(Apply(f, Unlink(MANIFEST_TEMP_NAME)), Unlink(JOURNAL_NAME)) == c.original
    ensures Apply(f, Unlink(MANIFEST_TEMP_NAME)) == Stranded(c)
  {
    ControlNamesDiffer();
    hide INVENTORY_NAME, LOCK_NAME, JOURNAL_NAME, JOURNAL_TEMP_NAME, MANIFEST_TEMP_NAME;
    var e := Apply(f, Unlink(MANIFEST_TEMP_NAME));
    assert JOURNAL_NAME in e && e[JOURNAL_NAME] == c.record;
    assert (e - {JOURNAL_NAME})[JOURNAL_NAME := c.record] == e;
  }

  /** Stopping a roll forward after any number of steps leaves its phase or the committed directory. */
  lemma ForwardStops(c: Commit, d: Directory, k: nat)
    requires CommitOk(c) && RollingForward(c, d) && k <= |RecoverySteps(d, c.plan, After)|
    ensures var s := RecoverySteps(d, c.plan, After);
            var e := Run(d, s[..k]);
            if k == |s| then e == Final(c) else RollingForward(c, e)
  {
    hide *;
    CommitCovered(c);
    RecoveryLists(d, c.plan);
    var ps, n, s := PairsOf(c.plan), |c.plan.paths|, RecoverySteps(d, c.plan, After);
    var r, v := Sweep(d, ps, n), [Unlink(JOURNAL_NAME)];
    if k == |s| {
      assert s[..k] == s;
      ForwardCommits(c, d);
    } else {
      PrefixOfAppend(r, v, k);
      var m := SweepPrefix(d, ps, n, k);
      SweepKeepsPhase(c, d, m);
    }
  }
}
