/** The guarantees of the prune protocol: atomicity under a crash at any step, restart of recovery any number
    of times, its one dead end, and conservation of the files. */
module CrashTheorems {
  import opened Basics
  import opened Ordering
  import opened Inventory
  import opened BackupDirectory
  import opened PruneJournals
  import opened Relocation
  import opened Recovery
  import opened CrashSafety
  import opened PruneProtocol

  /** Recovery run on `d` to its end returns normally and leaves `target`. */
  ghost predicate RecoversTo(d: Directory, target: Directory, root: Identity, lock: Identity) {
    var s := RecoveryScript(d, root, lock);
    s.ok && Run(d, s.steps) == target
  }

  /** The directory after one recovery cut off after `cut` steps. */
  ghost function CutOff(d: Directory, cut: nat, root: Identity, lock: Identity): Directory {
    var s := RecoveryScript(d, root, lock).steps;
    Run(d, s[..Min(cut, |s|)])
  }

  /** The directory after as many recoveries as there are cuts, each cut off by a crash. */
  ghost function Interrupted(d: Directory, cuts: seq<nat>, root: Identity, lock: Identity): Directory
    decreases |cuts|
  {
    if |cuts| == 0 then d else Interrupted(CutOff(d, cuts[0], root, lock), cuts[1..], root, lock)
  }

  /** Some recovery, in the rollback phase, is cut off exactly before its last step. */
  ghost predicate CutInGap(d: Directory, cuts: seq<nat>, root: Identity, lock: Identity)
    decreases |cuts|
  {
    |cuts| > 0 &&
    ((JOURNAL_NAME in d && MANIFEST_TEMP_NAME in d && cuts[0] + 1 == |RecoveryScript(d, root, lock).steps|)
     || CutInGap(CutOff(d, cuts[0], root, lock), cuts[1..], root, lock))
  }

  /** The original phase: recovery will end with the original directory. */
  ghost predicate Undecided(c: Commit, d: Directory)
    requires Covered(c.plan)
  {
    Staging(c, d) || RollingBack(c, d)
  }

  ghost predicate Decided(c: Commit, d: Directory)
    requires Covered(c.plan)
  {
    d == Final(c) || RollingForward(c, d)
  }

  lemma UndecidedRecovers(c: Commit, d: Directory, root: Identity, lock: Identity)
    requires CommitOk(c) && RecordOk(c, root, lock)
    requires Covered(c.plan) && Undecided(c, d)
    ensures RecoversTo(d, c.original, root, lock)
  {
    hide CommitOk, RecordOk, Staging, RollingBack, RecoveryScript, Run;
    if Staging(c, d) {
      StagingRecovers(c, d, root, lock, 0);
    } else {
      RollingBackScript(c, d, root, lock);
      RollbackRestores(c, d);
    }
  }

  lemma FinalScript(c: Commit, root: Identity, lock: Identity)
    requires CommitOk(c)
    ensures RecoveryScript(Final(c), root, lock) == Script([], true)
  {
    ControlNamesDiffer();
    NamesNotPaths(c, JOURNAL_NAME);
    NamesNotPaths(c, JOURNAL_TEMP_NAME);
    NamesNotPaths(c, MANIFEST_TEMP_NAME);
    hide CommitOk, Final, INVENTORY_NAME, LOCK_NAME, JOURNAL_NAME, JOURNAL_TEMP_NAME, MANIFEST_TEMP_NAME;
  }

  lemma NamesNotPaths(c: Commit, x: string)
    requires CommitOk(c) && x in ControlNames() && (x == JOURNAL_NAME || x == JOURNAL_TEMP_NAME || x == MANIFEST_TEMP_NAME)
    ensures x !in Final(c)
  {
    ControlNamesDiffer();
    FinalNames(c, x);
    if x in PathsOf(c.plan.before) { PathIsArtifact(c.plan, x); }
  }

  lemma DecidedRecovers(c: Commit, d: Directory, root: Identity, lock: Identity)
    requires CommitOk(c) && RecordOk(c, root, lock)
    requires Covered(c.plan) && Decided(c, d)
    ensures RecoversTo(d, Final(c), root, lock)
  {
    if d == Final(c) {
      FinalScript(c, root, lock);
      hide CommitOk, RecordOk, RecoveryScript, Final;
    } else {
      hide CommitOk, RecordOk, RecoveryScript, Final, Run;
      RollingForwardScript(c, d, root, lock);
      ForwardCommits(c, d);
    }
  }

  /** Crash atomicity. Stop a prune after any number of its steps, with anything in the files being created, and
      run recovery: it succeeds, and leaves the original directory if the manifest was not yet replaced and the
      committed directory if it was. */
  lemma CrashAtomicity(c: Commit, w: Partial, k: nat, root: Identity, lock: Identity)
    requires CommitOk(c) && RecordOk(c, root, lock) && PartialOk(c, w) && k <= |PruneSteps(c, w)|
    ensures RecoversTo(Run(c.original, PruneSteps(c, w)[..k]), if k < CommitPoint(c) then c.original else Final(c), root, lock)
  {
    CommitCovered(c);
    if k < CommitPoint(c) {
      PruneStopsBefore(c, w, k);
      hide CommitOk, RecordOk, PartialOk, Staging, RollingBack, Quarantined, RecoversTo, Run, PruneSteps;
      UndecidedRecovers(c, Run(c.original, PruneSteps(c, w)[..k]), root, lock);
    } else {
      PruneStopsAfter(c, w, k);
      hide CommitOk, RecordOk, PartialOk, RollingForward, RecoversTo, Run, PruneSteps, Final;
      DecidedRecovers(c, Run(c.original, PruneSteps(c, w)[..k]), root, lock);
    }
  }

  /** The two outcomes are different directories, so exactly one of them is reached. */
  lemma OutcomesDiffer(c: Commit)
    requires CommitOk(c)
    ensures c.original != Final(c)
  {
    hide ValidManifest, Canonical, Retained, ArtifactName, ManifestPayload, ReadsManifest, Listed, Bound, TempOk;
    var x := c.plan.paths[0];
    assert x in SetOf(c.plan.paths) && x in PathsOf(c.plan.before);
    PathIsArtifact(c.plan, x);
    ControlsHere();
    hide INVENTORY_NAME, LOCK_NAME, ControlNames;
    FinalAt(c, x);
    assert x in c.original.Keys;
  }

  // ----- Recovery of an arbitrary directory -----

  /** Soundness of recovery for any directory with a journal: either it rejects and changes nothing, or the
      journal is valid and recovery ends in a validated inventory holding exactly the journal's old or new list,
      every file as the journal bound it, and the manifest alone decided which. */
  lemma JournalledRecoveryIsSound(d: Directory, root: Identity, lock: Identity)
    requires LOCK_NAME in d && JOURNAL_NAME in d
    ensures var s := RecoveryScript(d, root, lock);
            if !s.ok then s.steps == []
            else
              && d[JOURNAL_NAME].Regular? && d[JOURNAL_NAME].content.Journal?
              && var j := d[JOURNAL_NAME].content.journal;
              && JournalOk(j, root, lock)
              && exists p, side :: Describes(p, j) && ManifestSide(d, p) == Some(side) && Settled(Run(d, s.steps), p, Kept(p, side))
  {
    hide JournalOk, PlanOk, Covered, PlanScript, ManifestSide, Recoverable, RecoverySteps, Settled, Kept, Run, Describes,
      JOURNAL_NAME, LOCK_NAME, JOURNAL_TEMP_NAME, MANIFEST_TEMP_NAME;
    if d[JOURNAL_NAME].Regular? && d[JOURNAL_NAME].content.Journal? && JournalOk(d[JOURNAL_NAME].content.journal, root, lock) {
      var j := d[JOURNAL_NAME].content.journal;
      JournalHasPlan(j, root, lock);
      var p := PlanOf(j);
      PlanScriptIsSound(d, p, root, lock);
      if PlanScript(d, p).ok {
        assert Describes(p, j) && ManifestSide(d, p) == Some(ManifestSide(d, p).value);
      }
    }
  }

  lemma PlanScriptIsSound(d: Directory, p: Plan, root: Identity, lock: Identity)
    requires LOCK_NAME in d && PlanOk(p)
    ensures Covered(p)
    ensures var s := PlanScript(d, p);
            if !s.ok then s.steps == []
            else ManifestSide(d, p).Some? && Settled(Run(d, s.steps), p, Kept(p, ManifestSide(d, p).value))
  {
    hide PlanOk, SetOf, PathsOf, ManifestSide, Recoverable, RecoverySteps, Settled, Kept, Run, LOCK_NAME;
    PlanCovered(p);
    match ManifestSide(d, p)
    case None =>
    case Some(side) =>
      if Recoverable(d, p, side) { RecoverySettles(d, p, side); }
  }

  lemma PlanCovered(p: Plan)
    requires PlanOk(p)
    ensures Covered(p)
  {
  }

  /** Soundness of recovery without a journal: only the two temporary names can go, both do if it returns
      normally, and it fails exactly if one of them is not a regular file; the temporary journal may then already
      be gone, and nothing else is. */
  lemma UnjournalledRecoveryIsSound(d: Directory, root: Identity, lock: Identity)
    requires JOURNAL_NAME !in d
    ensures var s := RecoveryScript(d, root, lock);
            var e := Run(d, s.steps);
            && (forall x :: x != JOURNAL_TEMP_NAME && x != MANIFEST_TEMP_NAME ==> SameAt(d, e, x))
            && (s.ok <==> (JOURNAL_TEMP_NAME in d ==> d[JOURNAL_TEMP_NAME].Regular?) && (MANIFEST_TEMP_NAME in d ==> d[MANIFEST_TEMP_NAME].Regular?))
            && (s.ok ==> e == d - {JOURNAL_TEMP_NAME, MANIFEST_TEMP_NAME})
            && (!s.ok ==> e == if JOURNAL_TEMP_NAME in d && d[JOURNAL_TEMP_NAME].Regular? then d - {JOURNAL_TEMP_NAME} else d)
  {
    hide Run, JOURNAL_NAME, LOCK_NAME, JOURNAL_TEMP_NAME, MANIFEST_TEMP_NAME;
    var s := CleanupScript(d);
    assert RecoveryScript(d, root, lock) == s;
    CleanupRuns(d, s.steps);
    if s.ok {
      CleanupLists(d);
      forall x ensures SameAt(d - {JOURNAL_TEMP_NAME, MANIFEST_TEMP_NAME}, Run(d, s.steps), x) {
        if x != JOURNAL_TEMP_NAME && x != MANIFEST_TEMP_NAME { assert SameAt(d, Run(d, s.steps), x); }
      }
      SameMaps(d - {JOURNAL_TEMP_NAME, MANIFEST_TEMP_NAME}, Run(d, s.steps));
    } else {
      FailedCleanup(d);
    }
  }

  lemma FailedCleanup(d: Directory)
    requires !CleanupScript(d).ok
    ensures Run(d, CleanupScript(d).steps)
         == if JOURNAL_TEMP_NAME in d && d[JOURNAL_TEMP_NAME].Regular? then d - {JOURNAL_TEMP_NAME} else d
  {
    ControlNamesDiffer();
    hide JOURNAL_TEMP_NAME, MANIFEST_TEMP_NAME;
    RunSnoc(d, [], Unlink(JOURNAL_TEMP_NAME));
    assert [] + [Unlink(JOURNAL_TEMP_NAME)] == [Unlink(JOURNAL_TEMP_NAME)];
  }

  // ----- Restarting recovery -----

  lemma CutUndecided(c: Commit, d: Directory, cut: nat, root: Identity, lock: Identity)
    requires CommitOk(c) && RecordOk(c, root, lock) && Covered(c.plan) && Undecided(c, d)
    ensures if JOURNAL_NAME in d && MANIFEST_TEMP_NAME in d && cut + 1 == |RecoveryScript(d, root, lock).steps|
            then CutOff(d, cut, root, lock) == Stranded(c)
            else Undecided(c, CutOff(d, cut, root, lock))
  {
    var s := RecoveryScript(d, root, lock).steps;
    var k := Min(cut, |s|);
    if Staging(c, d) {
      StagingRecovers(c, d, root, lock, k);
    } else {
      RollingBackScript(c, d, root, lock);
      assert JOURNAL_NAME in d && MANIFEST_TEMP_NAME in d;
      hide CommitOk, RecordOk, RollingBack, Staging, RecoveryScript, RecoverySteps, Run, Stranded;
      OriginalIsStaging(c);
      RollbackStops(c, d, k);
    }
  }

  lemma CutDecided(c: Commit, d: Directory, cut: nat, root: Identity, lock: Identity)
    requires CommitOk(c) && RecordOk(c, root, lock) && Covered(c.plan) && Decided(c, d)
    ensures Decided(c, CutOff(d, cut, root, lock))
    ensures !(JOURNAL_NAME in d && MANIFEST_TEMP_NAME in d)
  {
    hide CommitOk, RecordOk, RecoveryScript, Final, RecoverySteps, RollingForward, Run, Covered, JOURNAL_NAME, MANIFEST_TEMP_NAME;
    CommitCovered(c);
    if d == Final(c) {
      FinalScript(c, root, lock);
      ControlsHere();
      NamesNotPaths(c, JOURNAL_NAME);
      NoStepsNoCut(d, cut, root, lock);
    } else {
      RollingForwardScript(c, d, root, lock);
      NothingStagedForward(c, d);
      ForwardStops(c, d, Min(cut, |RecoverySteps(d, c.plan, After)|));
    }
  }

  lemma NothingStagedForward(c: Commit, d: Directory)
    requires Covered(c.plan) && RollingForward(c, d)
    ensures MANIFEST_TEMP_NAME !in d
  {
    hide MANIFEST_TEMP_NAME, JOURNAL_NAME, INVENTORY_NAME, LOCK_NAME, JOURNAL_TEMP_NAME, ItemsOk;
  }

  lemma NoStepsNoCut(d: Directory, cut: nat, root: Identity, lock: Identity)
    requires RecoveryScript(d, root, lock).steps == []
    ensures CutOff(d, cut, root, lock) == d
  {
    hide RecoveryScript;
  }

  lemma {:induction false} StrandedStays(c: Commit, cuts: seq<nat>, root: Identity, lock: Identity)
    requires CommitOk(c) && RecordOk(c, root, lock)
    ensures Interrupted(Stranded(c), cuts, root, lock) == Stranded(c)
    decreases |cuts|
  {
    if |cuts| > 0 {
      hide CommitOk, RecordOk, RecoveryScript, Stranded, CutOff, Run;
      StrandedIsRejected(c, root, lock);
      NoStepsNoCut(Stranded(c), cuts[0], root, lock);
      StrandedStays(c, cuts[1..], root, lock);
    }
  }

  /** Recovery before the commit point restarts: after any number of crashes inside it, running it to the end
      still yields the original directory, unless one crash fell between the removal of the staged manifest and
      the removal of the journal. Exactly then recovery is stuck: it is rejected for ever, changing nothing. */
  lemma {:induction false} RollbackRestarts(c: Commit, d: Directory, cuts: seq<nat>, root: Identity, lock: Identity)
    requires CommitOk(c) && RecordOk(c, root, lock) && Covered(c.plan) && Undecided(c, d)
    ensures var e := Interrupted(d, cuts, root, lock);
            if CutInGap(d, cuts, root, lock) then e == Stranded(c) && !RecoveryScript(e, root, lock).ok
            else RecoversTo(e, c.original, root, lock)
    decreases |cuts|
  {
    hide CommitOk, RecordOk, Undecided, RecoveryScript, CutOff, Stranded, RecoversTo, JOURNAL_NAME, MANIFEST_TEMP_NAME;
    if |cuts| == 0 {
      UndecidedRecovers(c, d, root, lock);
    } else {
      CutUndecided(c, d, cuts[0], root, lock);
      if JOURNAL_NAME in d && MANIFEST_TEMP_NAME in d && cuts[0] + 1 == |RecoveryScript(d, root, lock).steps| {
        StrandedStays(c, cuts[1..], root, lock);
        StrandedIsRejected(c, root, lock);
      } else {
        RollbackRestarts(c, CutOff(d, cuts[0], root, lock), cuts[1..], root, lock);
      }
    }
  }

  /** Recovery after the commit point restarts without exception. */
  lemma {:induction false} ForwardRestarts(c: Commit, d: Directory, cuts: seq<nat>, root: Identity, lock: Identity)
    requires CommitOk(c) && RecordOk(c, root, lock) && Covered(c.plan) && Decided(c, d)
    ensures RecoversTo(Interrupted(d, cuts, root, lock), Final(c), root, lock)
    ensures !CutInGap(d, cuts, root, lock)
    decreases |cuts|
  {
    hide CommitOk, RecordOk, Decided, RecoveryScript, CutOff, Final, RecoversTo, JOURNAL_NAME, MANIFEST_TEMP_NAME;
    if |cuts| == 0 {
      DecidedRecovers(c, d, root, lock);
    } else {
      CutDecided(c, d, cuts[0], root, lock);
      ForwardRestarts(c, CutOff(d, cuts[0], root, lock), cuts[1..], root, lock);
    }
  }

  /** The whole story of one prune: a crash after `k` of its steps, then any crashes inside recovery. Recovery
      finally ends as atomicity demands if and only if no rollback was cut off just before its last step. */
  lemma CrashedPruneRecovers(c: Commit, w: Partial, k: nat, cuts: seq<nat>, root: Identity, lock: Identity)
    requires CommitOk(c) && RecordOk(c, root, lock) && PartialOk(c, w) && k <= |PruneSteps(c, w)|
    ensures var d := Run(c.original, PruneSteps(c, w)[..k]);
            RecoversTo(Interrupted(d, cuts, root, lock), if k < CommitPoint(c) then c.original else Final(c), root, lock)
            <==> !CutInGap(d, cuts, root, lock)
    ensures CutInGap(Run(c.original, PruneSteps(c, w)[..k]), cuts, root, lock) ==> k < CommitPoint(c)
  {
    CommitCovered(c);
    var d := Run(c.original, PruneSteps(c, w)[..k]);
    if k < CommitPoint(c) {
      PruneStopsBefore(c, w, k);
      assert Undecided(c, d);
      hide CommitOk, RecordOk, PartialOk, Undecided, Run, PruneSteps, RecoveryScript;
      RollbackRestarts(c, d, cuts, root, lock);
    } else {
      PruneStopsAfter(c, w, k);
      assert Decided(c, d);
      hide CommitOk, RecordOk, PartialOk, Decided, Run, PruneSteps, RecoveryScript, RecoversTo;
      ForwardRestarts(c, d, cuts, root, lock);
    }
  }

  // ----- Conservation -----

  /** `x` is under exactly one of its two names, with the file it had originally. */
  ghost predicate Conserved(c: Commit, d: Directory, x: string)
    requires Covered(c.plan) && x in c.plan.bindings && x in c.original
  {
    if c.plan.Removes(x) then
      var q := c.plan.quarantine[x];
      (x in d) != (q in d) && (if x in d then d[x] else d[q]) == c.original[x]
    else
      x in d && d[x] == c.original[x]
  }

  /** Before the commit point no artifact is lost, doubled or changed, in a prune or in any rollback. */
  lemma UndecidedConserves(c: Commit, d: Directory, x: string)
    requires CommitOk(c) && Covered(c.plan) && Undecided(c, d) && x in PathsOf(c.plan.before)
    ensures x in c.original && Conserved(c, d, x)
  {
    hide ValidManifest, Canonical, Retained, ArtifactName, ManifestPayload, ReadsManifest, Listed, TempOk, SnapshotOf, ControlNames;
    PathIsArtifact(c.plan, x);
    ControlsHere();
    assert Bound(c.original, x, c.plan.bindings[x]);
    if Staging(c, d) {
      hide INVENTORY_NAME, LOCK_NAME, JOURNAL_NAME, JOURNAL_TEMP_NAME, MANIFEST_TEMP_NAME;
      assert SameAt(c.original, d, x);
      if c.plan.Removes(x) {
        var q := c.plan.quarantine[x];
        OriginalHasNoExtras(c);
        assert q !in ControlNames();
        assert SameAt(c.original, d, q);
      }
    } else {
      assert ItemOk(d, c.plan, Before, x);
      hide INVENTORY_NAME, LOCK_NAME, JOURNAL_NAME, JOURNAL_TEMP_NAME, MANIFEST_TEMP_NAME;
      if !c.plan.Removes(x) || x in d {
        BoundIdentifies(d, c.original, x, x, c.plan.bindings[x]);
      } else {
        BoundIdentifies(d, c.original, c.plan.quarantine[x], x, c.plan.bindings[x]);
      }
    }
  }

  /** After it a retained artifact is still its own file under its own name, and a quarantined file that is still
      there is the one that was moved away. */
  lemma DecidedConserves(c: Commit, d: Directory, x: string)
    requires CommitOk(c) && Covered(c.plan) && Decided(c, d) && x in PathsOf(c.plan.before)
    ensures x in c.original
    ensures !c.plan.Removes(x) ==> x in d && d[x] == c.original[x]
    ensures c.plan.Removes(x) ==> x !in d && (c.plan.quarantine[x] in d ==> d[c.plan.quarantine[x]] == c.original[x])
  {
    hide ValidManifest, Canonical, Retained, ArtifactName, ManifestPayload, ReadsManifest, Listed, TempOk, SnapshotOf, ControlNames;
    PathIsArtifact(c.plan, x);
    ControlsHere();
    assert Bound(c.original, x, c.plan.bindings[x]);
    hide INVENTORY_NAME, LOCK_NAME, JOURNAL_NAME, JOURNAL_TEMP_NAME, MANIFEST_TEMP_NAME;
    if d == Final(c) {
      FinalAt(c, x);
      if c.plan.Removes(x) {
        assert c.plan.quarantine[x] !in ControlNames();
        FinalAt(c, c.plan.quarantine[x]);
        OriginalHasNoExtras(c);
      }
    } else {
      assert ItemOk(d, c.plan, After, x);
      if !c.plan.Removes(x) {
        BoundIdentifies(d, c.original, x, x, c.plan.bindings[x]);
      } else if c.plan.quarantine[x] in d {
        BoundIdentifies(d, c.original, c.plan.quarantine[x], x, c.plan.bindings[x]);
      }
    }
  }

  /** Conservation at every step of a prune. */
  lemma PruneConserves(c: Commit, w: Partial, k: nat, x: string)
    requires CommitOk(c) && PartialOk(c, w) && k <= |PruneSteps(c, w)| && x in PathsOf(c.plan.before)
    ensures Covered(c.plan) && x in c.original
    ensures var d := Run(c.original, PruneSteps(c, w)[..k]);
            if k < CommitPoint(c) then Conserved(c, d, x)
            else if c.plan.Removes(x) then x !in d && (c.plan.quarantine[x] in d ==> d[c.plan.quarantine[x]] == c.original[x])
            else x in d && d[x] == c.original[x]
  {
    CommitCovered(c);
    var d := Run(c.original, PruneSteps(c, w)[..k]);
    if k < CommitPoint(c) {
      PruneStopsBefore(c, w, k);
      assert Undecided(c, d);
      hide CommitOk, PartialOk, Undecided, Run, PruneSteps, PathsOf;
      UndecidedConserves(c, d, x);
    } else {
      PruneStopsAfter(c, w, k);
      assert Decided(c, d);
      hide CommitOk, PartialOk, Decided, Run, PruneSteps, PathsOf;
      DecidedConserves(c, d, x);
    }
  }
}
