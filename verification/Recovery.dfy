/** Recovery of an interrupted prune: the manifest alone decides between rolling back and rolling forward. */
module Recovery {
  import opened Basics
  import opened Ordering
  import opened Inventory
  import opened BackupDirectory
  import opened PruneJournals
  import opened Relocation

  datatype Side = Before | After

  /** What recovery does: the durable steps it takes, and whether it then returns normally. */
  datatype Script = Script(steps: seq<Step>, ok: bool)

  // ----- Deciding -----

  /** `_manifest_recovery_state`. */
  function ManifestSide(d: Directory, p: Plan): Option<Side> {
    if !ReadsManifest(d) || !ValidManifest(d[INVENTORY_NAME].content.artifacts) then None
    else if SnapshotOf(d[INVENTORY_NAME]) == p.oldFile && Listed(d) == p.before then Some(Before)
    else if SnapshotOf(d[INVENTORY_NAME]) == p.newFile && Listed(d) == p.after then Some(After)
    else None
  }

  function PairsOf(p: Plan): (ps: seq<Pair>)
    requires p.quarantine.Keys == SetOf(p.paths)
    ensures |ps| == |p.paths| && forall i :: 0 <= i < |ps| ==> ps[i] == Pair(p.paths[i], p.quarantine[p.paths[i]])
  {
    seq(|p.paths|, i requires 0 <= i < |p.paths| && p.paths[i] in p.quarantine => Pair(p.paths[i], p.quarantine[p.paths[i]]))
  }

  /** Where an artifact of the old manifest may stand on each side. */
  predicate ItemOk(d: Directory, p: Plan, side: Side, path: string)
    requires path in p.bindings && (p.Removes(path) ==> path in p.quarantine)
  {
    if !p.Removes(path) then Bound(d, path, p.bindings[path])
    else if side.Before? then
      if path in d then p.quarantine[path] !in d && Bound(d, path, p.bindings[path])
      else Bound(d, p.quarantine[path], p.bindings[path])
    else
      path !in d && (p.quarantine[path] in d ==> Bound(d, p.quarantine[path], p.bindings[path]))
  }

  /** The tables of the plan cover what the locations need. */
  ghost predicate Covered(p: Plan) {
    p.bindings.Keys == PathsOf(p.before) && p.quarantine.Keys == SetOf(p.paths)
  }

  ghost predicate ItemsOk(d: Directory, p: Plan, side: Side)
    requires Covered(p)
  {
    forall x :: x in PathsOf(p.before) ==> ItemOk(d, p, side, x)
  }

  /** The directories `_recovery_locations` accepts. */
  ghost predicate Recoverable(d: Directory, p: Plan, side: Side)
    requires Covered(p)
  {
    && JOURNAL_TEMP_NAME !in d
    && (if side.Before? then Bound(d, MANIFEST_TEMP_NAME, p.newFile) else MANIFEST_TEMP_NAME !in d)
    && ItemsOk(d, p, side)
    && d.Keys <= {LOCK_NAME, INVENTORY_NAME, JOURNAL_NAME, MANIFEST_TEMP_NAME} + PathsOf(p.before) + p.quarantine.Values
  }

  function RecoverySteps(d: Directory, p: Plan, side: Side): seq<Step>
    requires p.quarantine.Keys == SetOf(p.paths)
  {
    if side.Before? then Restore(d, PairsOf(p), |p.paths|) + [Unlink(MANIFEST_TEMP_NAME)] + [Unlink(JOURNAL_NAME)]
    else Sweep(d, PairsOf(p), |p.paths|) + [Unlink(JOURNAL_NAME)]
  }

  /** A journal that validates has a plan. */
  lemma JournalHasPlan(j: PruneJournal, root: Identity, lock: Identity)
    requires JournalOk(j, root, lock)
    ensures DistinctPaths(j.oldManifest) && |j.bindings| == |j.oldManifest| && NoRepeats(j.paths)
    ensures PlanOk(PlanOf(j))
  {
    PathsAreSorted(j);
    DescribedPlanOk(PlanOf(j), j, root, lock);
  }

  /** `_recover_prune`. */
  ghost function JournalScript(d: Directory, j: PruneJournal, root: Identity, lock: Identity): Script {
    if !JournalOk(j, root, lock) then Script([], false)
    else
      JournalHasPlan(j, root, lock);
      PlanScript(d, PlanOf(j))
  }

  ghost function PlanScript(d: Directory, p: Plan): Script
    requires Covered(p)
  {
    match ManifestSide(d, p)
    case None => Script([], false)
    case Some(side) =>
      if Recoverable(d, p, side) then Script(RecoverySteps(d, p, side), true) else Script([], false)
  }

  function RemoveIfPresent(d: Directory, name: string): seq<Step> {
    if name in d then [Unlink(name)] else []
  }

  /** `_cleanup_unpublished_controls`: the two temporary files go, in this order, if they are regular files. */
  function CleanupScript(d: Directory): Script {
    if JOURNAL_TEMP_NAME in d && d[JOURNAL_TEMP_NAME].Irregular? then Script([], false)
    else if MANIFEST_TEMP_NAME in d && d[MANIFEST_TEMP_NAME].Irregular? then Script(RemoveIfPresent(d, JOURNAL_TEMP_NAME), false)
    else Script(RemoveIfPresent(d, JOURNAL_TEMP_NAME) + RemoveIfPresent(d, MANIFEST_TEMP_NAME), true)
  }

  /** `_recover_if_needed`. */
  ghost function RecoveryScript(d: Directory, root: Identity, lock: Identity): Script {
    if JOURNAL_NAME !in d then CleanupScript(d)
    else if d[JOURNAL_NAME].Irregular? || !d[JOURNAL_NAME].content.Journal? then Script([], false)
    else JournalScript(d, d[JOURNAL_NAME].content.journal, root, lock)
  }

  // ----- Names -----

  lemma PathIsArtifact(p: Plan, path: string)
    requires PlanOk(p) && path in PathsOf(p.before)
    ensures ArtifactName(path) && path !in ControlNames() && path !in p.quarantine.Values
  {
    var k :| 0 <= k < |p.before| && p.before[k].path == path;
    assert ValidArtifact(p.before[k]);
    NamesDisjoint(path, "", 0);
  }

  /** The names a prune moves files between are pairwise different. */
  lemma PairsApart(p: Plan)
    requires PlanOk(p)
    ensures Apart(PairsOf(p))
  {
    var ps := PairsOf(p);
    forall i, k | 0 <= i < |ps| && 0 <= k < |ps|
      ensures ps[i].path != ps[k].hidden && (i != k ==> ps[i].path != ps[k].path && ps[i].hidden != ps[k].hidden)
    {
      assert p.paths[i] in SetOf(p.paths) && p.paths[k] in SetOf(p.paths);
      PathIsArtifact(p, p.paths[i]);
    }
  }

  /** Control files and retained artifacts are outside every move and removal of quarantined files. */
  lemma OutsidePairs(p: Plan, n: nat, x: string)
    requires PlanOk(p) && n <= |p.paths|
    requires x in ControlNames() || (x in PathsOf(p.before) && !p.Removes(x))
    ensures !Touches(PairsOf(p), n, x)
  {
    hide ValidManifest, Canonical, Retained, ArtifactName, ManifestPayload, ControlNames;
    var ps := PairsOf(p);
    if x in PathsOf(p.before) { PathIsArtifact(p, x); }
    forall i | 0 <= i < n ensures x != ps[i].path && x != ps[i].hidden {
      assert p.paths[i] in SetOf(p.paths);
      PathIsArtifact(p, p.paths[i]);
    }
  }

  lemma RecoverablePlaced(d: Directory, p: Plan)
    requires PlanOk(p) && Recoverable(d, p, Before)
    ensures Placed(d, PairsOf(p))
    ensures forall i :: 0 <= i < |p.paths| ==>
              Placed(d, PairsOf(p)) && Held(d, PairsOf(p)[i]).Regular? && SnapshotOf(Held(d, PairsOf(p)[i])) == p.bindings[p.paths[i]]
  {
    var ps := PairsOf(p);
    forall i | 0 <= i < |ps|
      ensures (ps[i].path in d) != (ps[i].hidden in d)
      ensures Held(d, ps[i]).Regular? && SnapshotOf(Held(d, ps[i])) == p.bindings[p.paths[i]]
    {
      assert p.paths[i] in SetOf(p.paths);
      assert ItemOk(d, p, Before, p.paths[i]);
    }
  }

  // ----- What recovery leaves -----

  /** The directory is a validated inventory with these artifacts, each file as bound. */
  ghost predicate Settled(e: Directory, p: Plan, artifacts: seq<Artifact>) {
    && InventoryOk(e) && ReadsManifest(e) && Listed(e) == artifacts
    && forall x :: x in PathsOf(artifacts) ==> x in p.bindings && Bound(e, x, p.bindings[x])
  }

  lemma SettledFrom(e: Directory, p: Plan, artifacts: seq<Artifact>)
    requires PlanOk(p) && ReadsManifest(e) && ValidManifest(e[INVENTORY_NAME].content.artifacts) && Listed(e) == artifacts
    requires forall a :: a in artifacts ==> a in p.before
    requires e.Keys == {LOCK_NAME, INVENTORY_NAME} + PathsOf(artifacts)
    requires forall x :: x in PathsOf(artifacts) ==> x in p.bindings && Bound(e, x, p.bindings[x])
    ensures Settled(e, p, artifacts)
  {
    hide ValidManifest, Canonical, ArtifactName, ControlNames, Retained, ManifestPayload, ManifestDigest, NoRepeats;
    var data := e[INVENTORY_NAME].content.artifacts;
    CanonicalProperties(data);
    forall a | a in data ensures Matches(e, a) {
      assert a in artifacts && a in p.before;
      var k :| 0 <= k < |p.before| && p.before[k] == a;
      var m :| 0 <= m < |artifacts| && artifacts[m] == a;
      assert a.path in PathsOf(artifacts);
    }
  }

  lemma UnlinkKeeps(d: Directory, name: string, x: string)
    ensures x != name ==> SameAt(d, Apply(d, Unlink(name)), x)
    ensures name !in Apply(d, Unlink(name))
  {
  }

  lemma ControlsHere()
    ensures INVENTORY_NAME in ControlNames() && LOCK_NAME in ControlNames() && JOURNAL_NAME in ControlNames()
    ensures JOURNAL_TEMP_NAME in ControlNames() && MANIFEST_TEMP_NAME in ControlNames()
  {
  }

  lemma ControlsAt(d: Directory, e: Directory, p: Plan, n: nat)
    requires PlanOk(p) && n <= |p.paths| && SameElsewhere(d, e, PairsOf(p), n)
    ensures forall x :: x in ControlNames() ==> SameAt(d, e, x)
  {
    forall x | x in ControlNames() ensures SameAt(d, e, x) { OutsidePairs(p, n, x); }
  }

  lemma HiddenIsTouched(p: Plan, x: string)
    requires PlanOk(p) && x in p.quarantine.Values
    ensures Touches(PairsOf(p), |p.paths|, x)
  {
    var y :| y in p.quarantine && p.quarantine[y] == x;
    assert y in SetOf(p.paths);
    var i :| 0 <= i < |p.paths| && p.paths[i] == y;
    assert PairsOf(p)[i].hidden == x;
  }

  /** Where an old artifact stands once all moves back are made. */
  lemma RollbackAt(d: Directory, e: Directory, p: Plan, x: string)
    requires PlanOk(p) && Recoverable(d, p, Before) && Placed(d, PairsOf(p))
    requires RestoredUpTo(d, e, PairsOf(p), |p.paths|) && x in PathsOf(p.before)
    ensures Bound(e, x, p.bindings[x]) && (!p.Removes(x) ==> SameAt(d, e, x)) && x !in ControlNames()
  {
    hide ValidManifest, Canonical, Retained, ArtifactName, ManifestPayload;
    PathIsArtifact(p, x);
    assert ItemOk(d, p, Before, x);
    if p.Removes(x) {
      var i :| 0 <= i < |p.paths| && p.paths[i] == x;
      assert PairsOf(p)[i].path in e;
    } else {
      OutsidePairs(p, |p.paths|, x);
      assert SameAt(d, e, x);
    }
  }

  lemma RollbackNames(d: Directory, e: Directory, p: Plan, x: string)
    requires PlanOk(p) && Recoverable(d, p, Before) && Placed(d, PairsOf(p))
    requires RestoredUpTo(d, e, PairsOf(p), |p.paths|) && x in e
    ensures x == LOCK_NAME || x == INVENTORY_NAME || x == JOURNAL_NAME || x == MANIFEST_TEMP_NAME || x in PathsOf(p.before)
  {
    hide ValidManifest, Canonical, Retained, ArtifactName, ManifestPayload, ItemsOk, Bound, INVENTORY_NAME, LOCK_NAME, JOURNAL_NAME, JOURNAL_TEMP_NAME, MANIFEST_TEMP_NAME;
    var ps := PairsOf(p);
    if Touches(ps, |p.paths|, x) {
      var i :| 0 <= i < |p.paths| && (x == ps[i].path || x == ps[i].hidden);
      assert x == p.paths[i] && x in SetOf(p.paths);
    } else {
      assert SameAt(d, e, x);
      if x in p.quarantine.Values { HiddenIsTouched(p, x); }
    }
  }

  /** `e` is what a rollback of `d` leaves, name by name. */
  ghost predicate RollbackResult(d: Directory, e: Directory, p: Plan)
    requires Covered(p)
  {
    && JOURNAL_NAME !in e && SameAt(d, e, INVENTORY_NAME) && SameAt(d, e, LOCK_NAME)
    && (forall x :: x in PathsOf(p.before) ==> Bound(e, x, p.bindings[x]) && (!p.Removes(x) ==> SameAt(d, e, x)))
    && forall x :: x in e ==> x == LOCK_NAME || x == INVENTORY_NAME || x in PathsOf(p.before)
  }

  lemma RollbackEffect(d: Directory, p: Plan)
    requires PlanOk(p) && Recoverable(d, p, Before)
    ensures RollbackResult(d, Run(d, RecoverySteps(d, p, Before)), p)
  {
    var ps, n := PairsOf(p), |p.paths|;
    PairsApart(p);
    RecoverablePlaced(d, p);
    RestoreImage(d, ps, n);
    var s := Restore(d, ps, n);
    var f := Run(d, s);
    RunSnoc(d, s, Unlink(MANIFEST_TEMP_NAME));
    RunSnoc(d, s + [Unlink(MANIFEST_TEMP_NAME)], Unlink(JOURNAL_NAME));
    RollbackTail(d, f, p);
  }

  lemma RollbackTail(d: Directory, f: Directory, p: Plan)
    requires PlanOk(p) && Recoverable(d, p, Before) && Placed(d, PairsOf(p)) && RestoredUpTo(d, f, PairsOf(p), |p.paths|)
    ensures RollbackResult(d, Apply(Apply(f, Unlink(MANIFEST_TEMP_NAME)), Unlink(JOURNAL_NAME)), p)
  {
    ControlsAt(d, f, p, |p.paths|);
    ControlsHere();
    ControlNamesDiffer();
    assert Covered(p);
    hide PlanOk, Recoverable, Placed, RestoredUpTo, SameAt, Bound, ControlNames, INVENTORY_NAME, LOCK_NAME, JOURNAL_NAME, JOURNAL_TEMP_NAME, MANIFEST_TEMP_NAME;
    forall x | x in PathsOf(p.before)
      ensures Bound(f, x, p.bindings[x]) && (!p.Removes(x) ==> SameAt(d, f, x)) && x != MANIFEST_TEMP_NAME && x != JOURNAL_NAME
    {
      RollbackAt(d, f, p, x);
    }
    forall x | x in f ensures x == LOCK_NAME || x == INVENTORY_NAME || x == JOURNAL_NAME || x == MANIFEST_TEMP_NAME || x in PathsOf(p.before) {
      RollbackNames(d, f, p, x);
    }
    RollbackUnlinks(d, f, p);
  }

  lemma RollbackUnlinks(d: Directory, f: Directory, p: Plan)
    requires Covered(p) && SameAt(d, f, INVENTORY_NAME) && SameAt(d, f, LOCK_NAME)
    requires forall x :: x in PathsOf(p.before) ==>
               Bound(f, x, p.bindings[x]) && (!p.Removes(x) ==> SameAt(d, f, x)) && x != MANIFEST_TEMP_NAME && x != JOURNAL_NAME
    requires forall x :: x in f ==>
               x == LOCK_NAME || x == INVENTORY_NAME || x == JOURNAL_NAME || x == MANIFEST_TEMP_NAME || x in PathsOf(p.before)
    ensures RollbackResult(d, Apply(Apply(f, Unlink(MANIFEST_TEMP_NAME)), Unlink(JOURNAL_NAME)), p)
  {
    ControlNamesDiffer();
    hide PathsOf, SnapshotOf, INVENTORY_NAME, LOCK_NAME, JOURNAL_NAME, JOURNAL_TEMP_NAME, MANIFEST_TEMP_NAME;
    var e := Apply(Apply(f, Unlink(MANIFEST_TEMP_NAME)), Unlink(JOURNAL_NAME));
    assert forall x :: x != MANIFEST_TEMP_NAME && x != JOURNAL_NAME ==> SameAt(f, e, x);
    assert SameAt(f, e, INVENTORY_NAME) && SameAt(f, e, LOCK_NAME);
    forall x | x in PathsOf(p.before) ensures Bound(e, x, p.bindings[x]) && (!p.Removes(x) ==> SameAt(d, e, x)) {
      assert SameAt(f, e, x);
    }
  }

  /** Where an old artifact stands once the quarantined files are gone. */
  lemma ForwardAt(d: Directory, e: Directory, p: Plan, x: string)
    requires PlanOk(p) && Recoverable(d, p, After)
    requires SweptUpTo(d, e, PairsOf(p), |p.paths|) && x in PathsOf(p.before)
    ensures x !in ControlNames()
    ensures if p.Removes(x) then x !in e else SameAt(d, e, x) && Bound(e, x, p.bindings[x])
  {
    hide ValidManifest, Canonical, Retained, ArtifactName, ManifestPayload;
    PathIsArtifact(p, x);
    assert ItemOk(d, p, After, x);
    if p.Removes(x) {
      var i :| 0 <= i < |p.paths| && p.paths[i] == x;
      assert SameAt(d, e, PairsOf(p)[i].path);
    } else {
      OutsidePairs(p, |p.paths|, x);
      assert SameAt(d, e, x);
    }
  }

  lemma ForwardNames(d: Directory, e: Directory, p: Plan, x: string)
    requires PlanOk(p) && Recoverable(d, p, After)
    requires SweptUpTo(d, e, PairsOf(p), |p.paths|) && x in e
    ensures x == LOCK_NAME || x == INVENTORY_NAME || x == JOURNAL_NAME || (x in PathsOf(p.before) && !p.Removes(x))
  {
    hide ValidManifest, Canonical, Retained, ArtifactName, ManifestPayload, ItemsOk, Bound, INVENTORY_NAME, LOCK_NAME, JOURNAL_NAME, JOURNAL_TEMP_NAME, MANIFEST_TEMP_NAME;
    var ps := PairsOf(p);
    if Touches(ps, |p.paths|, x) {
      var i :| 0 <= i < |p.paths| && (x == ps[i].path || x == ps[i].hidden);
      assert p.paths[i] in SetOf(p.paths);
      ForwardAt(d, e, p, p.paths[i]);
    } else {
      assert SameAt(d, e, x);
      if x in p.quarantine.Values { HiddenIsTouched(p, x); }
      OutsidePairs(p, |p.paths|, MANIFEST_TEMP_NAME);
      if x in PathsOf(p.before) { ForwardAt(d, e, p, x); }
    }
  }

  /** `e` is what rolling `d` forward leaves, name by name. */
  ghost predicate ForwardResult(d: Directory, e: Directory, p: Plan)
    requires Covered(p)
  {
    && JOURNAL_NAME !in e && SameAt(d, e, INVENTORY_NAME) && SameAt(d, e, LOCK_NAME)
    && (forall x :: x in PathsOf(p.before) ==> if p.Removes(x) then x !in e else SameAt(d, e, x) && Bound(e, x, p.bindings[x]))
    && forall x :: x in e ==> x == LOCK_NAME || x == INVENTORY_NAME || (x in PathsOf(p.before) && !p.Removes(x))
  }

  lemma ForwardEffect(d: Directory, p: Plan)
    requires PlanOk(p) && Recoverable(d, p, After)
    ensures ForwardResult(d, Run(d, RecoverySteps(d, p, After)), p)
  {
    var ps, n := PairsOf(p), |p.paths|;
    PairsApart(p);
    SweepImage(d, ps, n);
    var s := Sweep(d, ps, n);
    RunSnoc(d, s, Unlink(JOURNAL_NAME));
    ForwardTail(d, Run(d, s), p);
  }

  lemma ForwardTail(d: Directory, f: Directory, p: Plan)
    requires PlanOk(p) && Recoverable(d, p, After) && SweptUpTo(d, f, PairsOf(p), |p.paths|)
    ensures ForwardResult(d, Apply(f, Unlink(JOURNAL_NAME)), p)
  {
    ControlsAt(d, f, p, |p.paths|);
    ControlsHere();
    assert Covered(p);
    hide PlanOk, Recoverable, SweptUpTo, SameAt, Bound, ControlNames, INVENTORY_NAME, LOCK_NAME, JOURNAL_NAME, JOURNAL_TEMP_NAME, MANIFEST_TEMP_NAME;
    forall x | x in PathsOf(p.before)
      ensures x != JOURNAL_NAME && if p.Removes(x) then x !in f else SameAt(d, f, x) && Bound(f, x, p.bindings[x])
    {
      ForwardAt(d, f, p, x);
    }
    forall x | x in f ensures x == LOCK_NAME || x == INVENTORY_NAME || x == JOURNAL_NAME || (x in PathsOf(p.before) && !p.Removes(x)) {
      ForwardNames(d, f, p, x);
    }
    ForwardUnlinks(d, f, p);
  }

  lemma ForwardUnlinks(d: Directory, f: Directory, p: Plan)
    requires Covered(p) && SameAt(d, f, INVENTORY_NAME) && SameAt(d, f, LOCK_NAME)
    requires forall x :: x in PathsOf(p.before) ==>
               x != JOURNAL_NAME && if p.Removes(x) then x !in f else SameAt(d, f, x) && Bound(f, x, p.bindings[x])
    requires forall x :: x in f ==>
               x == LOCK_NAME || x == INVENTORY_NAME || x == JOURNAL_NAME || (x in PathsOf(p.before) && !p.Removes(x))
    ensures ForwardResult(d, Apply(f, Unlink(JOURNAL_NAME)), p)
  {
    ControlNamesDiffer();
    hide PathsOf, SnapshotOf, INVENTORY_NAME, LOCK_NAME, JOURNAL_NAME, JOURNAL_TEMP_NAME, MANIFEST_TEMP_NAME;
    var e := Apply(f, Unlink(JOURNAL_NAME));
    assert forall x :: x != JOURNAL_NAME ==> SameAt(f, e, x);
    assert SameAt(f, e, INVENTORY_NAME) && SameAt(f, e, LOCK_NAME);
    forall x | x in PathsOf(p.before) ensures if p.Removes(x) then x !in e else SameAt(d, e, x) && Bound(e, x, p.bindings[x]) {
      assert SameAt(f, e, x);
    }
  }

  function Kept(p: Plan, side: Side): seq<Artifact> { if side.Before? then p.before else p.after }

  /** Recovery that goes ahead ends in a validated inventory: exactly the old or the new artifact list, every
      file as the journal bound it. */
  lemma RecoverySettles(d: Directory, p: Plan, side: Side)
    requires PlanOk(p) && ManifestSide(d, p) == Some(side) && Recoverable(d, p, side) && LOCK_NAME in d
    ensures Settled(Run(d, RecoverySteps(d, p, side)), p, Kept(p, side))
  {
    if side.Before? { RollbackSettles(d, p); } else { ForwardSettles(d, p); }
  }

  lemma RollbackSettles(d: Directory, p: Plan)
    requires PlanOk(p) && ManifestSide(d, p) == Some(Before) && Recoverable(d, p, Before) && LOCK_NAME in d
    ensures Settled(Run(d, RecoverySteps(d, p, Before)), p, p.before)
  {
    hide ValidManifest, Canonical, Retained, ArtifactName, ManifestPayload, InventoryOk, Settled, Recoverable, RecoverySteps, Size;
    var e := Run(d, RecoverySteps(d, p, Before));
    RollbackEffect(d, p);
    assert e.Keys == {LOCK_NAME, INVENTORY_NAME} + PathsOf(p.before);
    SettledFrom(e, p, p.before);
  }

  lemma ForwardSettles(d: Directory, p: Plan)
    requires PlanOk(p) && ManifestSide(d, p) == Some(After) && Recoverable(d, p, After) && LOCK_NAME in d
    ensures Settled(Run(d, RecoverySteps(d, p, After)), p, p.after)
  {
    hide ValidManifest, Canonical, Retained, ArtifactName, ManifestPayload, InventoryOk, Settled, Recoverable, RecoverySteps, Size;
    var e := Run(d, RecoverySteps(d, p, After));
    ForwardEffect(d, p);
    RetainedProperties(p.before, SetOf(p.paths));
    RetainedMembers(p.before, SetOf(p.paths));
    forall x | x in PathsOf(p.after) ensures x in p.bindings && Bound(e, x, p.bindings[x]) {
      assert x in PathsOf(p.before) && !p.Removes(x);
    }
    assert e.Keys == {LOCK_NAME, INVENTORY_NAME} + PathsOf(p.after);
    SettledFrom(e, p, p.after);
  }
}
