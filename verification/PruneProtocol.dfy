/** The prune protocol as a list of durable steps, and what a crash after any of them comes to. */
module PruneProtocol {
  import opened Ordering
  import opened Inventory
  import opened BackupDirectory
  import opened PruneJournals
  import opened Relocation
  import opened Recovery
  import opened CrashSafety

  /** The removals of all quarantined files, in order. */
  function Drop(ps: seq<Pair>, n: nat): (s: seq<Step>)
    requires n <= |ps|
    ensures |s| == n
  {
    if n == 0 then [] else Drop(ps, n - 1) + [Unlink(ps[n - 1].hidden)]
  }

  /** The files a prune is about to create, with whatever bytes a crash would leave in them. */
  datatype Partial = Partial(manifest: Entry, journal: Entry)

  ghost predicate PartialOk(c: Commit, w: Partial) {
    && w.manifest.Regular? && w.journal.Regular? && c.temp.Regular? && c.record.Regular?
    && w.manifest.(content := c.temp.content) == c.temp
    && w.journal.(content := c.record.content) == c.record
  }

  function StageSteps(c: Commit, w: Partial): (s: seq<Step>)
    requires c.temp.Regular? && c.record.Regular?
    ensures |s| == 4
  {
    [Create(MANIFEST_TEMP_NAME, w.manifest), Fill(MANIFEST_TEMP_NAME, c.temp.content)]
    + [Create(JOURNAL_TEMP_NAME, w.journal), Fill(JOURNAL_TEMP_NAME, c.record.content)]
  }

  /** Up to the commit point: stage, publish the journal, quarantine. */
  function OpeningSteps(c: Commit, w: Partial): (s: seq<Step>)
    requires c.temp.Regular? && c.record.Regular? && c.plan.quarantine.Keys == SetOf(c.plan.paths)
    ensures |s| == 5 + |c.plan.paths|
  {
    StageSteps(c, w) + [Move(JOURNAL_TEMP_NAME, JOURNAL_NAME)] + Hide(PairsOf(c.plan), |c.plan.paths|)
  }

  function ClosingSteps(p: Plan): (s: seq<Step>)
    requires p.quarantine.Keys == SetOf(p.paths)
    ensures |s| == |p.paths| + 1
  {
    Drop(PairsOf(p), |p.paths|) + [Unlink(JOURNAL_NAME)]
  }

  /** The durable steps of `prune_inventory` after its checks; the move onto the manifest is the commit point. */
  function PruneSteps(c: Commit, w: Partial): (s: seq<Step>)
    requires c.temp.Regular? && c.record.Regular? && c.plan.quarantine.Keys == SetOf(c.plan.paths)
    ensures |s| == 7 + 2 * |c.plan.paths|
  {
    OpeningSteps(c, w) + ([Move(MANIFEST_TEMP_NAME, INVENTORY_NAME)] + ClosingSteps(c.plan))
  }

  /** How many steps lead up to, and include, the commit point. */
  function CommitPoint(c: Commit): nat { 6 + |c.plan.paths| }

  lemma CommitPointAt(c: Commit)
    ensures CommitPoint(c) == 6 + |c.plan.paths|
  {
  }

  // ----- Staging -----

  lemma StagingStep(c: Commit, d: Directory, s: Step)
    requires Staging(c, d)
    requires (s.Create? && s.entry.Regular?) || s.Fill?
    requires s.name == MANIFEST_TEMP_NAME || s.name == JOURNAL_TEMP_NAME
    ensures Staging(c, Apply(d, s))
  {
    ControlNamesDiffer();
    hide INVENTORY_NAME, LOCK_NAME, JOURNAL_NAME, JOURNAL_TEMP_NAME, MANIFEST_TEMP_NAME;
    var e := Apply(d, s);
    forall x | x != MANIFEST_TEMP_NAME && x != JOURNAL_TEMP_NAME ensures SameAt(c.original, e, x) {
      assert SameAt(c.original, d, x);
    }
  }

  lemma {:induction false} StagingStops(c: Commit, s: seq<Step>)
    requires Staging(c, c.original)
    requires forall i :: 0 <= i < |s| ==> ((s[i].Create? && s[i].entry.Regular?) || s[i].Fill?)
                                          && (s[i].name == MANIFEST_TEMP_NAME || s[i].name == JOURNAL_TEMP_NAME)
    ensures Staging(c, Run(c.original, s))
  {
    if |s| > 0 {
      hide INVENTORY_NAME, LOCK_NAME, JOURNAL_NAME, JOURNAL_TEMP_NAME, MANIFEST_TEMP_NAME, Staging;
      StagingStops(c, s[..|s| - 1]);
      StagingStep(c, Run(c.original, s[..|s| - 1]), s[|s| - 1]);
    }
  }

  lemma OriginalIsStaging(c: Commit)
    requires CommitOk(c)
    ensures Staging(c, c.original)
  {
    OriginalHasNoExtras(c);
  }

  /** The directory once the journal is published. */
  function Published(c: Commit): Directory {
    c.original[MANIFEST_TEMP_NAME := c.temp][JOURNAL_NAME := c.record]
  }

  lemma PublishRuns(c: Commit, w: Partial)
    requires CommitOk(c) && PartialOk(c, w)
    ensures Run(c.original, StageSteps(c, w) + [Move(JOURNAL_TEMP_NAME, JOURNAL_NAME)]) == Published(c)
  {
    OriginalHasNoExtras(c);
    ControlNamesDiffer();
    PublishRunsOn(c.original, w, c.temp, c.record, MANIFEST_TEMP_NAME, JOURNAL_TEMP_NAME, JOURNAL_NAME);
  }

  lemma PublishRunsOn(d: Directory, w: Partial, temp: Entry, record: Entry, mt: string, jt: string, j: string)
    requires w.manifest.Regular? && w.journal.Regular? && temp.Regular? && record.Regular?
    requires w.manifest.(content := temp.content) == temp && w.journal.(content := record.content) == record
    requires mt != jt && mt != j && jt != j && jt !in d
    ensures Run(d, [Create(mt, w.manifest), Fill(mt, temp.content)] + [Create(jt, w.journal), Fill(jt, record.content)] + [Move(jt, j)])
            == d[mt := temp][j := record]
  {
    var a, b := [Create(mt, w.manifest), Fill(mt, temp.content)], [Create(jt, w.journal), Fill(jt, record.content)];
    assert a + b == [a[0], a[1], b[0], b[1]];
    RunFour(d, a[0], a[1], b[0], b[1]);
    RunSnoc(d, a + b, Move(jt, j));
    hide Run;
    var d2 := d[mt := temp];
    assert Apply(Apply(d, a[0]), a[1]) == d2;
    var d4 := d2[jt := record];
    assert Apply(Apply(d2, b[0]), b[1]) == d4;
    assert d4 - {jt} == d2;
  }

  lemma RunFour(d: Directory, a: Step, b: Step, c: Step, e: Step)
    ensures Run(d, [a, b, c, e]) == Apply(Apply(Apply(Apply(d, a), b), c), e)
  {
    RunSnoc(d, [], a);
    RunSnoc(d, [a], b);
    RunSnoc(d, [a, b], c);
    RunSnoc(d, [a, b, c], e);
    assert [] + [a] == [a] && [a] + [b] == [a, b] && [a, b] + [c] == [a, b, c] && [a, b, c] + [e] == [a, b, c, e];
  }

  // ----- Quarantine -----

  lemma PublishedItem(c: Commit, x: string)
    requires CommitOk(c) && x in PathsOf(c.plan.before)
    ensures ItemOk(Published(c), c.plan, Before, x)
    ensures SameAt(c.original, Published(c), x) && x in c.original
  {
    hide ValidManifest, Canonical, Retained, ArtifactName, ManifestPayload, ReadsManifest, Listed, TempOk, SnapshotOf;
    OriginalHasNoExtras(c);
    PathIsArtifact(c.plan, x);
    assert c.plan.Removes(x) ==> x in SetOf(c.plan.paths);
    assert Bound(c.original, x, c.plan.bindings[x]);
    if c.plan.Removes(x) { HiddenAbsent(c, c.plan.quarantine[x]); }
  }

  lemma HiddenAbsent(c: Commit, q: string)
    requires CommitOk(c) && q in c.plan.quarantine.Values
    ensures q !in Published(c)
  {
    hide ValidManifest, Canonical, Retained, ArtifactName, ManifestPayload, ReadsManifest, Listed, TempOk, SnapshotOf;
    OriginalHasNoExtras(c);
    assert q !in ControlNames();
  }

  /** The directory with the journal just published is in the rollback phase. */
  lemma PublishedRollsBack(c: Commit)
    requires CommitOk(c)
    ensures RollingBack(c, Published(c))
  {
    OriginalHasNoExtras(c);
    ControlNamesDiffer();
    var d := Published(c);
    assert Covered(c.plan);
    forall x | x in PathsOf(c.plan.before) ensures ItemOk(d, c.plan, Before, x) { PublishedItem(c, x); }
    hide PlanOk, PathsOf, ItemOk, INVENTORY_NAME, LOCK_NAME, JOURNAL_NAME, JOURNAL_TEMP_NAME, MANIFEST_TEMP_NAME;
    assert d.Keys == c.original.Keys + {MANIFEST_TEMP_NAME, JOURNAL_NAME};
  }

  lemma PathsPresent(c: Commit)
    requires CommitOk(c)
    ensures forall i :: 0 <= i < |c.plan.paths| ==> PairsOf(c.plan)[i].path in Published(c)
    ensures forall i :: 0 <= i < |c.plan.paths| ==> PairsOf(c.plan)[i].hidden !in Published(c)
  {
    hide ValidManifest, Canonical, Retained, ArtifactName, ManifestPayload, ReadsManifest, Listed, TempOk, SnapshotOf;
    forall i | 0 <= i < |c.plan.paths|
      ensures PairsOf(c.plan)[i].path in Published(c) && PairsOf(c.plan)[i].hidden !in Published(c)
    {
      assert c.plan.paths[i] in SetOf(c.plan.paths);
      PublishedItem(c, c.plan.paths[i]);
      HiddenAbsent(c, c.plan.quarantine[c.plan.paths[i]]);
    }
  }

  /** Where an old artifact stands after the first `m` quarantine moves. */
  lemma HiddenItem(c: Commit, e: Directory, m: nat, x: string)
    requires CommitOk(c) && m <= |c.plan.paths| && x in PathsOf(c.plan.before)
    requires (forall i :: 0 <= i < |c.plan.paths| ==> PairsOf(c.plan)[i].path in Published(c))
             && HiddenUpTo(Published(c), e, PairsOf(c.plan), m)
    ensures ItemOk(e, c.plan, Before, x)
  {
    hide ValidManifest, Canonical, Retained, ArtifactName, ManifestPayload, ReadsManifest, Listed, TempOk, SnapshotOf;
    var ps := PairsOf(c.plan);
    PairsApart(c.plan);
    PathsPresent(c);
    PublishedItem(c, x);
    if c.plan.Removes(x) {
      var i :| 0 <= i < |c.plan.paths| && c.plan.paths[i] == x;
      assert ps[i] == Pair(x, c.plan.quarantine[x]);
      if i >= m {
        NotTouchedBefore(ps, m, i);
        assert SameAt(Published(c), e, ps[i].path) && SameAt(Published(c), e, ps[i].hidden);
      }
    } else {
      OutsidePairs(c.plan, m, x);
      assert SameAt(Published(c), e, x);
    }
  }

  lemma HiddenName(c: Commit, e: Directory, m: nat, x: string)
    requires CommitOk(c) && m <= |c.plan.paths| && x in e
    requires (forall i :: 0 <= i < |c.plan.paths| ==> PairsOf(c.plan)[i].path in Published(c))
             && HiddenUpTo(Published(c), e, PairsOf(c.plan), m)
    ensures x in Published(c) || x in c.plan.quarantine.Values
  {
    hide ValidManifest, Canonical, Retained, ArtifactName, ManifestPayload, ReadsManifest, Listed, TempOk, SnapshotOf;
    var ps := PairsOf(c.plan);
    if Touches(ps, m, x) {
      var i :| 0 <= i < m && (x == ps[i].path || x == ps[i].hidden);
      assert c.plan.paths[i] in SetOf(c.plan.paths);
    } else {
      assert SameAt(Published(c), e, x);
    }
  }

  /** The directory after `m` quarantine moves. */
  ghost predicate Quarantined(c: Commit, e: Directory, m: nat)
    requires c.plan.quarantine.Keys == SetOf(c.plan.paths) && m <= |c.plan.paths|
  {
    && (forall i :: 0 <= i < |c.plan.paths| ==> PairsOf(c.plan)[i].path in Published(c))
    && HiddenUpTo(Published(c), e, PairsOf(c.plan), m)
  }

  lemma QuarantineRuns(c: Commit, m: nat)
    requires CommitOk(c) && m <= |c.plan.paths|
    ensures Quarantined(c, Run(Published(c), Hide(PairsOf(c.plan), m)), m)
  {
    PathsPresent(c);
    PairsApart(c.plan);
    HideImage(Published(c), PairsOf(c.plan), m);
  }

  lemma QuarantinedControls(c: Commit, e: Directory, m: nat)
    requires CommitOk(c) && m <= |c.plan.paths| && Quarantined(c, e, m)
    ensures forall x :: x in ControlNames() ==> SameAt(Published(c), e, x)
  {
    hide ValidManifest, Canonical, Retained, ArtifactName, ManifestPayload, ReadsManifest, Listed, TempOk, SnapshotOf, ControlNames;
    forall x | x in ControlNames() ensures SameAt(Published(c), e, x) { OutsidePairs(c.plan, m, x); }
  }

  /** While files move to quarantine the directory stays in the rollback phase. */
  lemma QuarantinedRollsBack(c: Commit, e: Directory, m: nat)
    requires CommitOk(c) && m <= |c.plan.paths| && Quarantined(c, e, m)
    ensures RollingBack(c, e)
  {
    hide PlanOk, OriginalOk, CommitOk, TempOk, Published, Quarantined, PathsOf, SetOf, Covered, ItemsOk, ControlNames, Bound, Recoverable, RollingBack, SameAt,
      INVENTORY_NAME, LOCK_NAME, JOURNAL_NAME, JOURNAL_TEMP_NAME, MANIFEST_TEMP_NAME;
    CommitCovered(c);
    PublishedRollsBack(c);
    QuarantinedControls(c, e, m);
    ControlsHere();
    QuarantinedKeeps(c, e, m);
    KeepsRollingBack(c, Published(c), e);
  }

  lemma QuarantinedKeeps(c: Commit, e: Directory, m: nat)
    requires CommitOk(c) && m <= |c.plan.paths| && Quarantined(c, e, m)
    ensures Covered(c.plan) && ItemsOk(e, c.plan, Before)
    ensures forall x :: x in e ==> x in Published(c) || x in c.plan.quarantine.Values
  {
    hide CommitOk, Published, HiddenUpTo, PathsOf, ItemOk;
    CommitCovered(c);
    forall x | x in PathsOf(c.plan.before) ensures ItemOk(e, c.plan, Before, x) { HiddenItem(c, e, m, x); }
    forall x | x in e ensures x in Published(c) || x in c.plan.quarantine.Values { HiddenName(c, e, m, x); }
  }

  lemma KeepsRollingBack(c: Commit, d: Directory, e: Directory)
    requires Covered(c.plan) && RollingBack(c, d)
    requires SameAt(d, e, JOURNAL_NAME) && SameAt(d, e, INVENTORY_NAME) && SameAt(d, e, LOCK_NAME)
    requires SameAt(d, e, MANIFEST_TEMP_NAME) && SameAt(d, e, JOURNAL_TEMP_NAME)
    requires ItemsOk(e, c.plan, Before)
    requires forall x :: x in e ==> x in d || x in c.plan.quarantine.Values
    ensures RollingBack(c, e)
  {
    hide PathsOf, SetOf, ItemOk, SnapshotOf, INVENTORY_NAME, LOCK_NAME, JOURNAL_NAME, JOURNAL_TEMP_NAME, MANIFEST_TEMP_NAME;
    forall x | x in e ensures x in {LOCK_NAME, INVENTORY_NAME, JOURNAL_NAME, MANIFEST_TEMP_NAME} + PathsOf(c.plan.before) + c.plan.quarantine.Values {
      assert x in d ==> x in d.Keys;
    }
  }

  // ----- The commit point -----

  lemma AllHidden(c: Commit, e: Directory, x: string)
    requires CommitOk(c) && Quarantined(c, e, |c.plan.paths|) && x in PathsOf(c.plan.before)
    ensures ItemOk(Apply(e, Move(MANIFEST_TEMP_NAME, INVENTORY_NAME)), c.plan, After, x)
  {
    hide ValidManifest, Canonical, Retained, ArtifactName, ManifestPayload, ReadsManifest, Listed, TempOk, SnapshotOf, OriginalOk,
      Published, ControlNames, INVENTORY_NAME, LOCK_NAME, JOURNAL_NAME, JOURNAL_TEMP_NAME, MANIFEST_TEMP_NAME;
    HiddenItem(c, e, |c.plan.paths|, x);
    PathIsArtifact(c.plan, x);
    ControlsHere();
    assert x != INVENTORY_NAME && x != MANIFEST_TEMP_NAME;
    if c.plan.Removes(x) {
      assert x in SetOf(c.plan.paths);
      var i :| 0 <= i < |c.plan.paths| && c.plan.paths[i] == x;
      assert PairsOf(c.plan)[i] == Pair(x, c.plan.quarantine[x]);
      assert c.plan.quarantine[x] !in ControlNames();
    }
  }

  /** Replacing the manifest moves the directory to the roll-forward phase. */
  lemma CommitRollsForward(c: Commit, e: Directory)
    requires CommitOk(c) && Quarantined(c, e, |c.plan.paths|)
    ensures RollingForward(c, Apply(e, Move(MANIFEST_TEMP_NAME, INVENTORY_NAME)))
  {
    QuarantinedRollsBack(c, e, |c.plan.paths|);
    QuarantinedControls(c, e, |c.plan.paths|);
    ControlsHere();
    ControlNamesDiffer();
    assert Covered(c.plan);
    var f := Apply(e, Move(MANIFEST_TEMP_NAME, INVENTORY_NAME));
    forall x | x in PathsOf(c.plan.before) ensures ItemOk(f, c.plan, After, x) { AllHidden(c, e, x); }
    assert MANIFEST_TEMP_NAME in Published(c) && Published(c)[MANIFEST_TEMP_NAME] == c.temp;
    hide PlanOk, OriginalOk, TempOk, Published, Quarantined, PathsOf, ItemOk, ControlNames, INVENTORY_NAME, LOCK_NAME, JOURNAL_NAME, JOURNAL_TEMP_NAME, MANIFEST_TEMP_NAME;
    assert SameAt(Published(c), e, MANIFEST_TEMP_NAME);
    assert e[MANIFEST_TEMP_NAME] == c.temp;
    assert f.Keys <= e.Keys;
  }

  /** When every quarantined file is there, dropping them all is what recovery would do. */
  lemma {:induction false} DropIsSweep(d: Directory, ps: seq<Pair>, n: nat)
    requires n <= |ps| && forall i :: 0 <= i < n ==> ps[i].hidden in d
    ensures Drop(ps, n) == Sweep(d, ps, n)
  {
    if n > 0 { DropIsSweep(d, ps, n - 1); }
  }

  lemma ClosingIsRecovery(c: Commit, e: Directory)
    requires CommitOk(c) && Quarantined(c, e, |c.plan.paths|)
    ensures ClosingSteps(c.plan) == RecoverySteps(Apply(e, Move(MANIFEST_TEMP_NAME, INVENTORY_NAME)), c.plan, After)
  {
    hide ValidManifest, Canonical, Retained, ArtifactName, ManifestPayload, ReadsManifest, Listed, TempOk, SnapshotOf, OriginalOk;
    var ps := PairsOf(c.plan);
    var f := Apply(e, Move(MANIFEST_TEMP_NAME, INVENTORY_NAME));
    forall i | 0 <= i < |ps| ensures ps[i].hidden in f {
      ControlsHere();
      assert c.plan.paths[i] in SetOf(c.plan.paths);
      assert ps[i].hidden !in ControlNames();
    }
    DropIsSweep(f, ps, |ps|);
  }

  // ----- Stopping a prune -----

  /** The directory right after the commit point. */
  function AtCommit(c: Commit): Directory
    requires c.plan.quarantine.Keys == SetOf(c.plan.paths)
  {
    Apply(Run(Published(c), Hide(PairsOf(c.plan), |c.plan.paths|)), Move(MANIFEST_TEMP_NAME, INVENTORY_NAME))
  }

  lemma StopsWhileStaging(c: Commit, w: Partial, k: nat)
    requires CommitOk(c) && PartialOk(c, w) && k < 5
    ensures Staging(c, Run(c.original, OpeningSteps(c, w)[..k]))
  {
    var s, j, h := StageSteps(c, w), [Move(JOURNAL_TEMP_NAME, JOURNAL_NAME)], Hide(PairsOf(c.plan), |c.plan.paths|);
    assert OpeningSteps(c, w) == s + j + h;
    OriginalIsStaging(c);
    StageStepsAreStaging(c, w, k);
    hide CommitOk, PartialOk, StageSteps, Hide, OpeningSteps, Run, Staging, INVENTORY_NAME, LOCK_NAME, JOURNAL_NAME, JOURNAL_TEMP_NAME, MANIFEST_TEMP_NAME;
    PrefixOfAppend(s + j, h, k);
    PrefixOfAppend(s, j, k);
    StagingStops(c, s[..k]);
  }

  lemma StopsWhileHiding(c: Commit, w: Partial, n: nat, k: nat)
    requires CommitOk(c) && PartialOk(c, w) && k <= |c.plan.paths| && n == 5 + k
    ensures Run(c.original, OpeningSteps(c, w)[..n]) == Run(Published(c), Hide(PairsOf(c.plan), k))
  {
    var s, h := StageSteps(c, w) + [Move(JOURNAL_TEMP_NAME, JOURNAL_NAME)], Hide(PairsOf(c.plan), |c.plan.paths|);
    assert OpeningSteps(c, w) == s + h && |s| == 5;
    HidePrefix(PairsOf(c.plan), |c.plan.paths|, k);
    PublishRuns(c, w);
    hide *;
    PrefixPastAppend(s, h, n);
    RunConcat(c.original, s, h[..k]);
  }

  lemma StopsBeforeCommit(c: Commit, w: Partial, n: nat, k: nat)
    requires CommitOk(c) && PartialOk(c, w) && k <= |c.plan.paths| && n == 5 + k
    ensures var e := Run(c.original, OpeningSteps(c, w)[..n]); Quarantined(c, e, k) && RollingBack(c, e)
  {
    StopsWhileHiding(c, w, n, k);
    QuarantineRuns(c, k);
    QuarantinedRollsBack(c, Run(Published(c), Hide(PairsOf(c.plan), k)), k);
  }

  lemma StageStepsAreStaging(c: Commit, w: Partial, k: nat)
    requires PartialOk(c, w) && k <= 4
    ensures var s := StageSteps(c, w)[..k];
            forall i :: 0 <= i < |s| ==> ((s[i].Create? && s[i].entry.Regular?) || s[i].Fill?)
                                         && (s[i].name == MANIFEST_TEMP_NAME || s[i].name == JOURNAL_TEMP_NAME)
  {
    hide JOURNAL_TEMP_NAME, MANIFEST_TEMP_NAME;
  }

  lemma OpeningPrefix(c: Commit, w: Partial, k: nat)
    requires CommitOk(c) && PartialOk(c, w) && k < CommitPoint(c)
    ensures PruneSteps(c, w)[..k] == OpeningSteps(c, w)[..k]
  {
    var s, o, t := PruneSteps(c, w), OpeningSteps(c, w), [Move(MANIFEST_TEMP_NAME, INVENTORY_NAME)] + ClosingSteps(c.plan);
    assert s == o + t && k <= |o|;
    hide *;
    PrefixOfAppend(o, t, k);
  }

  /** Where a crash before the commit point leaves the directory. */
  lemma PruneStopsBefore(c: Commit, w: Partial, k: nat)
    requires CommitOk(c) && PartialOk(c, w) && k < CommitPoint(c)
    ensures Covered(c.plan)
    ensures k < 5 ==> Staging(c, Run(c.original, PruneSteps(c, w)[..k]))
    ensures k >= 5 ==> Quarantined(c, Run(c.original, PruneSteps(c, w)[..k]), k - 5)
    ensures k >= 5 ==> RollingBack(c, Run(c.original, PruneSteps(c, w)[..k]))
  {
    hide *;
    CommitCovered(c);
    CommitPointAt(c);
    OpeningPrefix(c, w, k);
    if k < 5 { StopsWhileStaging(c, w, k); } else { StopsBeforeCommit(c, w, k, k - 5); }
  }

  /** Where a crash at or after the commit point leaves the directory. */
  lemma PruneStopsAfter(c: Commit, w: Partial, k: nat)
    requires CommitOk(c) && PartialOk(c, w) && CommitPoint(c) <= k <= |PruneSteps(c, w)|
    ensures Covered(c.plan)
    ensures k < |PruneSteps(c, w)| ==> RollingForward(c, Run(c.original, PruneSteps(c, w)[..k]))
    ensures k == |PruneSteps(c, w)| ==> Run(c.original, PruneSteps(c, w)[..k]) == Final(c)
  {
    hide *;
    CommitCovered(c);
    CommitPointAt(c);
    var m := k - CommitPoint(c);
    PastCommitRuns(c, w, k, m);
    StopsAfterCommit(c, m);
  }

  lemma PastCommitRuns(c: Commit, w: Partial, n: nat, k: nat)
    requires CommitOk(c) && PartialOk(c, w) && k <= |ClosingSteps(c.plan)| && n == CommitPoint(c) + k
    ensures Run(c.original, PruneSteps(c, w)[..n]) == Run(AtCommit(c), ClosingSteps(c.plan)[..k])
  {
    var s, o, z := PruneSteps(c, w), OpeningSteps(c, w), ClosingSteps(c.plan);
    assert s == o + ([Move(MANIFEST_TEMP_NAME, INVENTORY_NAME)] + z) && |o| + 1 == CommitPoint(c);
    CommitRuns(c, w);
    hide *;
    RunPastMiddle(c.original, s, o, Move(MANIFEST_TEMP_NAME, INVENTORY_NAME), z, k, n);
  }

  lemma CommitRuns(c: Commit, w: Partial)
    requires CommitOk(c) && PartialOk(c, w)
    ensures Run(c.original, OpeningSteps(c, w) + [Move(MANIFEST_TEMP_NAME, INVENTORY_NAME)]) == AtCommit(c)
  {
    hide *;
    CommitCovered(c);
    CommittedFrom(c);
    var o := OpeningSteps(c, w);
    StopsWhileHiding(c, w, |o|, |c.plan.paths|);
    assert o[..|o|] == o;
    RunSnoc(c.original, o, Move(MANIFEST_TEMP_NAME, INVENTORY_NAME));
  }

  lemma CommittedFrom(c: Commit)
    requires c.plan.quarantine.Keys == SetOf(c.plan.paths)
    ensures AtCommit(c) == Apply(Run(Published(c), Hide(PairsOf(c.plan), |c.plan.paths|)), Move(MANIFEST_TEMP_NAME, INVENTORY_NAME))
  {
    hide Run, Hide, Published, Apply, SetOf, INVENTORY_NAME, MANIFEST_TEMP_NAME;
  }

  lemma StopsAfterCommit(c: Commit, k: nat)
    requires CommitOk(c) && k <= |ClosingSteps(c.plan)|
    ensures RollingForward(c, AtCommit(c))
    ensures var e := Run(AtCommit(c), ClosingSteps(c.plan)[..k]);
            if k < |ClosingSteps(c.plan)| then RollingForward(c, e) else e == Final(c)
  {
    QuarantineRuns(c, |c.plan.paths|);
    var e := Run(Published(c), Hide(PairsOf(c.plan), |c.plan.paths|));
    CommitRollsForward(c, e);
    ClosingIsRecovery(c, e);
    ForwardStops(c, AtCommit(c), k);
  }
}
