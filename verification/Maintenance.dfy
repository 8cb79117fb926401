/** The maintenance operations on the backup root, in place: recovery, the validated listing and the prune.
    Their contracts say exactly which durable steps they take. */
module Maintenance {
  import opened Basics
  import opened Ordering
  import opened Timestamps
  import opened Inventory
  import opened BackupDirectory
  import opened PruneJournals
  import opened Relocation
  import opened Recovery
  import opened CrashSafety
  import opened PruneProtocol

  // ----- Locations -----

  /** The name under which one artifact of the old manifest stands, if any. */
  function Located(d: Directory, p: Plan, side: Side, path: string): set<string>
    requires p.Removes(path) ==> path in p.quarantine
  {
    if !p.Removes(path) || (side.Before? && path in d) then {path}
    else if side.Before? || p.quarantine[path] in d then {p.quarantine[path]}
    else {}
  }

  ghost function LocatedUpTo(d: Directory, p: Plan, side: Side, n: nat): set<string>
    requires Covered(p) && n <= |p.before|
  {
    if n == 0 then {} else LocatedUpTo(d, p, side, n - 1) + Located(d, p, side, p.before[n - 1].path)
  }

  lemma {:induction false} LocatedSound(d: Directory, p: Plan, side: Side, n: nat, x: string)
    requires Covered(p) && n <= |p.before|
    ensures x in LocatedUpTo(d, p, side, n) <==> exists i :: 0 <= i < n && x in Located(d, p, side, p.before[i].path)
  {
    if n > 0 {
      LocatedSound(d, p, side, n - 1, x);
      if x in Located(d, p, side, p.before[n - 1].path) {
        assert exists i :: 0 <= i < n && x in Located(d, p, side, p.before[i].path);
      }
    }
  }

  /** Once every artifact is where it may be, the located names are all the artifact and quarantine names present. */
  lemma LocatedIsPresent(d: Directory, p: Plan, side: Side, x: string)
    requires Covered(p) && ItemsOk(d, p, side) && SetOf(p.paths) <= PathsOf(p.before)
    ensures x in LocatedUpTo(d, p, side, |p.before|) <==> x in d && (x in PathsOf(p.before) || x in p.quarantine.Values)
  {
    hide SnapshotOf;
    LocatedSound(d, p, side, |p.before|, x);
    if x in LocatedUpTo(d, p, side, |p.before|) {
      var i :| 0 <= i < |p.before| && x in Located(d, p, side, p.before[i].path);
      assert p.before[i].path in PathsOf(p.before);
      assert ItemOk(d, p, side, p.before[i].path);
    }
    if x in d && x in PathsOf(p.before) {
      var i :| 0 <= i < |p.before| && p.before[i].path == x;
      assert ItemOk(d, p, side, x);
      assert x in Located(d, p, side, p.before[i].path);
    }
    if x in d && x in p.quarantine.Values {
      var y :| y in p.quarantine && p.quarantine[y] == x;
      assert y in SetOf(p.paths) && p.Removes(y);
      var i :| 0 <= i < |p.before| && p.before[i].path == y;
      assert ItemOk(d, p, side, y);
      assert x in Located(d, p, side, p.before[i].path);
    }
  }

  function BaseNames(side: Side): set<string> {
    {LOCK_NAME, INVENTORY_NAME, JOURNAL_NAME} + (if side.Before? then {MANIFEST_TEMP_NAME} else {})
  }

  /** The final comparison of `_recovery_locations`: the entries are exactly the allowed ones. */
  lemma EntriesAllowed(d: Directory, p: Plan, side: Side)
    requires Covered(p) && ItemsOk(d, p, side) && SetOf(p.paths) <= PathsOf(p.before) && BaseNames(side) <= d.Keys
    requires side.After? ==> MANIFEST_TEMP_NAME !in d
    ensures d.Keys == BaseNames(side) + LocatedUpTo(d, p, side, |p.before|)
            <==> d.Keys <= {LOCK_NAME, INVENTORY_NAME, JOURNAL_NAME, MANIFEST_TEMP_NAME} + PathsOf(p.before) + p.quarantine.Values
  {
    forall x ensures x in LocatedUpTo(d, p, side, |p.before|) <==> x in d && (x in PathsOf(p.before) || x in p.quarantine.Values) {
      LocatedIsPresent(d, p, side, x);
    }
    hide PathsOf, ItemsOk, SetOf, LocatedUpTo, INVENTORY_NAME, LOCK_NAME, JOURNAL_NAME, JOURNAL_TEMP_NAME, MANIFEST_TEMP_NAME;
  }

  /** What the location table says of one artifact: its quarantine name exactly if the file is there, and
      nothing exactly if it is already gone. `None` is the program's empty string. */
  predicate Found(d: Directory, p: Plan, side: Side, path: string, location: Option<string>)
    requires p.Removes(path) ==> path in p.quarantine
  {
    if p.Removes(path) then
      && (location == Some(p.quarantine[path]) <==> p.quarantine[path] in d)
      && (location == None <==> side.After? && p.quarantine[path] !in d)
    else location == Some(path)
  }

  ghost predicate PathHasPlace(p: Plan, x: string) {
    x in p.bindings && (p.Removes(x) ==> x in p.quarantine && p.quarantine[x] != x)
  }

  /** The part of `_recovery_locations` about one artifact: reject, or say where it stands. */
  method LocateArtifact(root: BackupRoot, p: Plan, side: Side, path: string) returns (r: Result<Option<string>>)
    requires PathHasPlace(p, path)
    ensures r.Ok? <==> ItemOk(root.entries, p, side, path)
    ensures r.Ok? ==> Found(root.entries, p, side, path, r.value)
    ensures r.Ok? ==> Located(root.entries, p, side, path) == if r.value.None? then {} else {r.value.value}
  {
    hide SnapshotOf;
    var expected := p.bindings[path];
    var original := root.EntrySnapshot(path);
    if original.Err? { return Err(original.error); }
    if !p.Removes(path) {
      if original.value != Some(expected) { return Err(InventoryError("retained backup artifact changed during prune recovery")); }
      return Ok(Some(path));
    }
    var quarantineName := p.quarantine[path];
    var quarantined := root.EntrySnapshot(quarantineName);
    if quarantined.Err? { return Err(quarantined.error); }
    if side.Before? {
      if original.value.None? == quarantined.value.None? {
        return Err(InventoryError("pruned backup artifact has an ambiguous recovery location"));
      }
      var current := if original.value.Some? then original.value else quarantined.value;
      if current != Some(expected) { return Err(InventoryError("pruned backup artifact changed during prune recovery")); }
      return Ok(Some(if original.value.Some? then path else quarantineName));
    }
    if original.value.Some? { return Err(InventoryError("new manifest coexists with a removed artifact name")); }
    if quarantined.value.None? { return Ok(None); }
    if quarantined.value != Some(expected) { return Err(InventoryError("quarantined backup artifact changed during prune recovery")); }
    r := Ok(Some(quarantineName));
  }

  /** The table covers the first `n` artifacts of the old manifest and is right about every one. */
  ghost predicate LocationsUpTo(d: Directory, p: Plan, side: Side, locations: map<string, Option<string>>, n: nat)
    requires Covered(p) && n <= |p.before|
  {
    forall i :: 0 <= i < n ==> ItemOk(d, p, side, p.before[i].path)
                               && p.before[i].path in locations && Found(d, p, side, p.before[i].path, locations[p.before[i].path])
  }

  lemma LocationsNext(d: Directory, p: Plan, side: Side, locations: map<string, Option<string>>, k: nat, location: Option<string>)
    requires Covered(p) && k < |p.before| && LocationsUpTo(d, p, side, locations, k) && DistinctPaths(p.before)
    requires ItemOk(d, p, side, p.before[k].path) && Found(d, p, side, p.before[k].path, location)
    ensures LocationsUpTo(d, p, side, locations[p.before[k].path := location], k + 1)
  {
    hide ItemOk, Found;
  }

  /** What recovery knows of each removed path once the locations are accepted. */
  ghost predicate LocationsRight(d: Directory, p: Plan, side: Side, locations: map<string, Option<string>>)
    requires Covered(p)
  {
    forall x :: x in p.paths ==> x in locations && Found(d, p, side, x, locations[x])
  }

  lemma AllLocated(d: Directory, p: Plan, side: Side, locations: map<string, Option<string>>)
    requires Covered(p) && SetOf(p.paths) <= PathsOf(p.before) && LocationsUpTo(d, p, side, locations, |p.before|)
    ensures ItemsOk(d, p, side) && LocationsRight(d, p, side, locations)
  {
    hide ItemOk, Found;
    forall x | x in PathsOf(p.before) ensures ItemOk(d, p, side, x) && x in locations && Found(d, p, side, x, locations[x]) {
      var k :| 0 <= k < |p.before| && p.before[k].path == x;
    }
    forall x | x in p.paths ensures x in locations && Found(d, p, side, x, locations[x]) {
      assert x in SetOf(p.paths);
    }
  }

  lemma PlanFacts(p: Plan)
    requires PlanOk(p)
    ensures Covered(p) && SetOf(p.paths) <= PathsOf(p.before) && DistinctPaths(p.before)
    ensures forall i :: 0 <= i < |p.before| ==> PathHasPlace(p, p.before[i].path)
  {
    forall i | 0 <= i < |p.before| ensures PathHasPlace(p, p.before[i].path) {
      PathIsArtifact(p, p.before[i].path);
    }
  }

  /** The loop of `_recovery_locations` over the old manifest. */
  method LocateAll(root: BackupRoot, p: Plan, side: Side, base: set<string>) returns (r: Result<map<string, Option<string>>>, allowed: set<string>)
    requires PlanOk(p)
    ensures Covered(p) && (r.Ok? <==> ItemsOk(root.entries, p, side))
    ensures r.Ok? ==> LocationsRight(root.entries, p, side, r.value)
    ensures r.Ok? ==> AllowedUpTo(root.entries, p, side, |p.before|, base, allowed)
  {
    hide *;
    PlanFacts(p);
    var locations: map<string, Option<string>> := map[];
    allowed := base;
    NothingLocated(root.entries, p, side);
    for k := 0 to |p.before|
      invariant LocationsUpTo(root.entries, p, side, locations, k)
      invariant AllowedUpTo(root.entries, p, side, k, base, allowed)
    {
      var path := p.before[k].path;
      assert PathHasPlace(p, path);
      var location := LocateArtifact(root, p, side, path);
      if location.Err? {
        NotLocated(root.entries, p, side, k);
        return Err(location.error), allowed;
      }
      LocationsNext(root.entries, p, side, locations, k, location.value);
      LocatedNext(root.entries, p, side, k, location.value, base, allowed);
      locations := locations[path := location.value];
      allowed := allowed + if location.value.None? then {} else {location.value.value};
    }
    AllLocated(root.entries, p, side, locations);
    r := Ok(locations);
  }

  lemma NothingLocated(d: Directory, p: Plan, side: Side)
    requires Covered(p)
    ensures LocationsUpTo(d, p, side, map[], 0) && forall base :: AllowedUpTo(d, p, side, 0, base, base)
  {
  }

  ghost predicate AllowedUpTo(d: Directory, p: Plan, side: Side, n: nat, base: set<string>, allowed: set<string>)
    requires Covered(p) && n <= |p.before|
  {
    allowed == base + LocatedUpTo(d, p, side, n)
  }

  lemma NotLocated(d: Directory, p: Plan, side: Side, k: nat)
    requires Covered(p) && k < |p.before| && PathHasPlace(p, p.before[k].path) && !ItemOk(d, p, side, p.before[k].path)
    ensures !ItemsOk(d, p, side)
  {
    hide ItemOk;
    assert p.before[k].path in PathsOf(p.before);
  }

  lemma LocatedNext(d: Directory, p: Plan, side: Side, k: nat, location: Option<string>, base: set<string>, allowed: set<string>)
    requires Covered(p) && k < |p.before| && PathHasPlace(p, p.before[k].path)
    requires Located(d, p, side, p.before[k].path) == if location.None? then {} else {location.value}
    requires AllowedUpTo(d, p, side, k, base, allowed)
    ensures AllowedUpTo(d, p, side, k + 1, base, allowed + if location.None? then {} else {location.value})
  {
    hide Located;
  }

  /** `_recovery_locations`: accepts exactly the recoverable directories, and says for each removed path whether
      its file stands in quarantine. */
  method RecoveryLocations(root: BackupRoot, p: Plan, side: Side) returns (r: Result<map<string, Option<string>>>)
    requires PlanOk(p)
    requires LOCK_NAME in root.entries && JOURNAL_NAME in root.entries && INVENTORY_NAME in root.entries
    ensures Covered(p) && (r.Ok? <==> Recoverable(root.entries, p, side))
    ensures r.Ok? ==> LocationsRight(root.entries, p, side, r.value)
  {
    ghost var d := root.entries;
    hide PlanOk, Covered, SnapshotOf, ItemsOk, LocationsRight, PathsOf, SetOf, Bound,
      INVENTORY_NAME, LOCK_NAME, JOURNAL_NAME, JOURNAL_TEMP_NAME, MANIFEST_TEMP_NAME;
    PlanFacts(p);
    if JOURNAL_TEMP_NAME in root.entries { return Err(InventoryError("prune recovery found an unexpected journal temporary file")); }
    var allowed := {LOCK_NAME, INVENTORY_NAME, JOURNAL_NAME};
    if side.Before? {
      var staged := root.NamedSnapshotIs(MANIFEST_TEMP_NAME, p.newFile);
      if !staged { return Err(InventoryError("prune recovery manifest temporary file is missing or changed")); }
      allowed := allowed + {MANIFEST_TEMP_NAME};
    } else if MANIFEST_TEMP_NAME in root.entries {
      return Err(InventoryError("prune recovery found an unexpected manifest temporary file"));
    }
    assert allowed == BaseNames(side) && BaseNames(side) <= d.Keys;
    var locations, all := LocateAll(root, p, side, allowed);
    if locations.Err? { return Err(locations.error); }
    EntriesAllowed(d, p, side);
    if root.entries.Keys != all { return Err(InventoryError("backup root contains entries outside the prune journal")); }
    r := locations;
  }

  // ----- Recovery in place -----

  /** `_manifest_recovery_state`. */
  method ManifestRecoveryState(root: BackupRoot, p: Plan) returns (r: Result<Side>)
    ensures match ManifestSide(root.entries, p) case Some(side) => r == Ok(side) case None => r.Err?
  {
    hide ValidManifest, Canonical, SnapshotOf;
    if !ReadsManifest(root.entries) { return Err(InventoryError("prune recovery found a missing manifest")); }
    var data := root.entries[INVENTORY_NAME].content.artifacts;
    var artifacts := ValidateManifestData(data);
    if artifacts.Err? { return Err(artifacts.error); }
    var snapshot := SnapshotOf(root.entries[INVENTORY_NAME]);
    if snapshot == p.oldFile && artifacts.value == p.before { return Ok(Before); }
    if snapshot == p.newFile && artifacts.value == p.after { return Ok(After); }
    r := Err(InventoryError("prune recovery found an unexpected manifest state"));
  }

  /** A file that a rollback has yet to move is where the journal says. */
  lemma RollbackItem(d: Directory, p: Plan, i: nat)
    requires PlanOk(p) && Recoverable(d, p, Before) && i < |p.paths|
    ensures Covered(p)
    ensures var q := p.quarantine[p.paths[i]];
            (q in d <==> p.paths[i] !in d) && (q in d ==> Bound(d, q, p.bindings[p.paths[i]]))
  {
    assert p.paths[i] in SetOf(p.paths) && p.paths[i] in PathsOf(p.before);
    assert ItemOk(d, p, Before, p.paths[i]);
  }

  lemma ForwardItem(d: Directory, p: Plan, i: nat)
    requires PlanOk(p) && Recoverable(d, p, After) && i < |p.paths|
    ensures Covered(p)
    ensures var q := p.quarantine[p.paths[i]]; q in d ==> Bound(d, q, p.bindings[p.paths[i]])
  {
    assert p.paths[i] in SetOf(p.paths) && p.paths[i] in PathsOf(p.before);
    assert ItemOk(d, p, After, p.paths[i]);
  }

  /** Between two moves of a rollback: the controls are untouched, the next file is still where it was, and the
      next move is the next step. */
  lemma RollbackMiddle(d: Directory, p: Plan, i: nat)
    requires PlanOk(p) && Recoverable(d, p, Before) && i < |p.paths|
    ensures Covered(p)
    ensures var ps := PairsOf(p);
            var e, path, q := Run(d, Restore(d, ps, i)), ps[i].path, ps[i].hidden;
            && SameAt(d, e, JOURNAL_NAME) && SameAt(d, e, INVENTORY_NAME) && SameAt(d, e, path) && SameAt(d, e, q)
            && (q in d <==> path !in d) && (q in d ==> Bound(d, q, p.bindings[path]))
            && Run(d, Restore(d, ps, i + 1)) == (if q in d then Apply(e, Move(q, path)) else e)
            && Restore(d, ps, i + 1) == if q in d then Restore(d, ps, i) + [Move(q, path)] else Restore(d, ps, i)
  {
    assert Covered(p);
    var ps := PairsOf(p);
    PairsApart(p);
    RecoverablePlaced(d, p);
    RollbackItem(d, p, i);
    ControlsHere();
    hide PlanOk, Recoverable, Placed, Apart, Run, Restore, SameElsewhere, SameAt, Bound, Apply, ControlNames,
      INVENTORY_NAME, LOCK_NAME, JOURNAL_NAME, JOURNAL_TEMP_NAME, MANIFEST_TEMP_NAME;
    RestoreNext(d, ps, i);
    ControlsAt(d, Run(d, Restore(d, ps, i)), p, i);
  }

  lemma ForwardMiddle(d: Directory, p: Plan, i: nat)
    requires PlanOk(p) && Recoverable(d, p, After) && i < |p.paths|
    ensures Covered(p)
    ensures var ps := PairsOf(p);
            var e, q := Run(d, Sweep(d, ps, i)), ps[i].hidden;
            && SameAt(d, e, JOURNAL_NAME) && SameAt(d, e, INVENTORY_NAME) && SameAt(d, e, q)
            && (q in d ==> Bound(d, q, p.bindings[ps[i].path]))
            && Run(d, Sweep(d, ps, i + 1)) == (if q in d then Apply(e, Unlink(q)) else e)
            && Sweep(d, ps, i + 1) == if q in d then Sweep(d, ps, i) + [Unlink(q)] else Sweep(d, ps, i)
  {
    assert Covered(p);
    var ps := PairsOf(p);
    PairsApart(p);
    ForwardItem(d, p, i);
    ControlsHere();
    hide PlanOk, Recoverable, Apart, Run, Sweep, SameElsewhere, SameAt, Bound, Apply, ControlNames,
      INVENTORY_NAME, LOCK_NAME, JOURNAL_NAME, JOURNAL_TEMP_NAME, MANIFEST_TEMP_NAME;
    SweepNext(d, ps, i);
    ControlsAt(d, Run(d, Sweep(d, ps, i)), p, i);
  }

  lemma Appended(log: seq<Step>, s: seq<Step>, step: Step)
    ensures log + s + [step] == log + (s + [step])
  {
  }

  lemma RestoreNone(d: Directory, ps: seq<Pair>, log: seq<Step>)
    ensures HasRun(d, log, Restore(d, ps, 0), d, log) && HasRun(d, log, Sweep(d, ps, 0), d, log)
  {
  }

  lemma StaysBound(d: Directory, e: Directory, x: string, s: Snapshot)
    requires SameAt(d, e, x) && Bound(d, x, s)
    ensures Bound(e, x, s)
  {
  }

  /** One move back, after the re-checks of the journal, the manifest and the free name; none of them can fail. */
  method RestoreOne(root: BackupRoot, path: string, hidden: string, binding: Snapshot, manifestFile: Snapshot, journalFile: Snapshot)
    requires Bound(root.entries, JOURNAL_NAME, journalFile) && Bound(root.entries, INVENTORY_NAME, manifestFile)
    requires path !in root.entries && Bound(root.entries, hidden, binding)
    modifies root
    ensures root.entries == Apply(old(root.entries), Move(hidden, path)) && root.log == old(root.log) + [Move(hidden, path)]
  {
    hide INVENTORY_NAME, JOURNAL_NAME, SnapshotOf;
    var journalSame := root.NamedSnapshotIs(JOURNAL_NAME, journalFile);
    var manifestSame := root.NamedSnapshotIs(INVENTORY_NAME, manifestFile);
    var free := path !in root.entries;
    assert journalSame && manifestSame && free;
    root.Rename(hidden, path);
    var restored := root.NamedSnapshotIs(path, binding);
    assert restored;
  }

  /** One removal from quarantine, after its re-checks. */
  method SweepOne(root: BackupRoot, hidden: string, binding: Snapshot, manifestFile: Snapshot, journalFile: Snapshot)
    requires Bound(root.entries, JOURNAL_NAME, journalFile) && Bound(root.entries, INVENTORY_NAME, manifestFile)
    requires Bound(root.entries, hidden, binding)
    modifies root
    ensures root.entries == Apply(old(root.entries), Unlink(hidden)) && root.log == old(root.log) + [Unlink(hidden)]
  {
    hide INVENTORY_NAME, JOURNAL_NAME, SnapshotOf;
    var journalSame := root.NamedSnapshotIs(JOURNAL_NAME, journalFile);
    var manifestSame := root.NamedSnapshotIs(INVENTORY_NAME, manifestFile);
    var hiddenSame := root.NamedSnapshotIs(hidden, binding);
    assert journalSame && manifestSame && hiddenSame;
    root.Remove(hidden);
  }

  lemma StaysAbsent(d: Directory, e: Directory, x: string)
    requires SameAt(d, e, x) && x !in d
    ensures x !in e
  {
  }

  /** What the location table says of the removed path number `i`. */
  lemma LocationAt(d: Directory, p: Plan, side: Side, i: nat, locations: map<string, Option<string>>)
    requires PlanOk(p) && Covered(p) && LocationsRight(d, p, side, locations) && i < |p.paths|
    ensures var path := p.paths[i];
            && path in locations && path in p.quarantine && path in p.bindings
            && (locations[path] == Some(p.quarantine[path]) <==> p.quarantine[path] in d)
            && (locations[path] == None <==> side.After? && p.quarantine[path] !in d)
  {
    hide ValidManifest, Canonical, Retained, ManifestPayload, ControlNames, ArtifactName;
    var path := p.paths[i];
    assert path in SetOf(p.paths) && path in PathsOf(p.before);
    assert Found(d, p, side, path, locations[path]);
  }

  /** What the rollback loop knows before its turn `i`. */
  lemma RollbackTurn(d: Directory, p: Plan, i: nat, locations: map<string, Option<string>>, journalFile: Snapshot)
    requires PlanOk(p) && Covered(p) && Recoverable(d, p, Before) && LocationsRight(d, p, Before, locations) && i < |p.paths|
    requires Bound(d, JOURNAL_NAME, journalFile) && Bound(d, INVENTORY_NAME, p.oldFile)
    ensures var path := p.paths[i];
            && path in locations && path in p.quarantine && path in p.bindings
            && var q, s := p.quarantine[path], Restore(d, PairsOf(p), i);
            var e := Run(d, s);
            && Bound(e, JOURNAL_NAME, journalFile) && Bound(e, INVENTORY_NAME, p.oldFile)
            && (locations[path] == Some(q) ==> path !in e && Bound(e, q, p.bindings[path]))
            && Restore(d, PairsOf(p), i + 1) == (if locations[path] == Some(q) then s + [Move(q, path)] else s)
            && Run(d, Restore(d, PairsOf(p), i + 1)) == if locations[path] == Some(q) then Apply(e, Move(q, path)) else e
  {
    LocationAt(d, p, Before, i, locations);
    RollbackMiddle(d, p, i);
    var path, e := p.paths[i], Run(d, Restore(d, PairsOf(p), i));
    hide *;
    StaysBound(d, e, JOURNAL_NAME, journalFile);
    StaysBound(d, e, INVENTORY_NAME, p.oldFile);
    if locations[path] == Some(p.quarantine[path]) {
      StaysBound(d, e, p.quarantine[path], p.bindings[path]);
      StaysAbsent(d, e, path);
    }
  }

  lemma ForwardTurn(d: Directory, p: Plan, i: nat, locations: map<string, Option<string>>, journalFile: Snapshot)
    requires PlanOk(p) && Covered(p) && Recoverable(d, p, After) && LocationsRight(d, p, After, locations) && i < |p.paths|
    requires Bound(d, JOURNAL_NAME, journalFile) && Bound(d, INVENTORY_NAME, p.newFile)
    ensures var path := p.paths[i];
            && path in locations && path in p.quarantine && path in p.bindings
            && var q, s := p.quarantine[path], Sweep(d, PairsOf(p), i);
            var e := Run(d, s);
            && Bound(e, JOURNAL_NAME, journalFile) && Bound(e, INVENTORY_NAME, p.newFile)
            && (locations[path].Some? ==> locations[path].value == q && Bound(e, q, p.bindings[path]))
            && Sweep(d, PairsOf(p), i + 1) == (if locations[path].Some? then s + [Unlink(q)] else s)
            && Run(d, Sweep(d, PairsOf(p), i + 1)) == if locations[path].Some? then Apply(e, Unlink(q)) else e
  {
    LocationAt(d, p, After, i, locations);
    ForwardMiddle(d, p, i);
    var path, e := p.paths[i], Run(d, Sweep(d, PairsOf(p), i));
    hide *;
    StaysBound(d, e, JOURNAL_NAME, journalFile);
    StaysBound(d, e, INVENTORY_NAME, p.newFile);
    if locations[path].Some? { StaysBound(d, e, p.quarantine[path], p.bindings[path]); }
  }

  /** The steps `s` have been carried out since the directory was `d` and the log was `before`. */
  ghost predicate HasRun(d: Directory, before: seq<Step>, s: seq<Step>, e: Directory, log: seq<Step>) {
    e == Run(d, s) && log == before + s
  }

  lemma Running(d: Directory, before: seq<Step>, s: seq<Step>, e: Directory, log: seq<Step>)
    ensures HasRun(d, before, s, e, log) <==> e == Run(d, s) && log == before + s
  {
    hide Run;
  }

  lemma CoveredHasPairs(p: Plan)
    requires Covered(p)
    ensures p.quarantine.Keys == SetOf(p.paths)
  {
  }

  /** One turn of the rollback loop. `d` and `log` are the directory and the log when the loop began. */
  method RollbackOne(root: BackupRoot, p: Plan, i: nat, locations: map<string, Option<string>>, journalFile: Snapshot,
                     ghost d: Directory, ghost log: seq<Step>)
    requires PlanOk(p) && Covered(p) && Recoverable(d, p, Before) && LocationsRight(d, p, Before, locations) && i < |p.paths|
    requires Bound(d, JOURNAL_NAME, journalFile) && Bound(d, INVENTORY_NAME, p.oldFile)
    requires HasRun(d, log, Restore(d, PairsOf(p), i), root.entries, root.log)
    modifies root
    ensures HasRun(d, log, Restore(d, PairsOf(p), i + 1), root.entries, root.log)
  {
    hide *;
    CoveredHasPairs(p);
    ghost var s := Restore(d, PairsOf(p), i);
    var path := p.paths[i];
    Running(d, log, s, root.entries, root.log);
    RollbackTurn(d, p, i, locations, journalFile);
    if locations[path] == Some(p.quarantine[path]) {
      RestoreOne(root, path, p.quarantine[path], p.bindings[path], p.oldFile, journalFile);
      Appended(log, s, Move(p.quarantine[path], path));
    }
    Running(d, log, Restore(d, PairsOf(p), i + 1), root.entries, root.log);
  }

  /** One turn of the roll-forward loop. */
  method ForwardOne(root: BackupRoot, p: Plan, i: nat, locations: map<string, Option<string>>, journalFile: Snapshot,
                    ghost d: Directory, ghost log: seq<Step>)
    requires PlanOk(p) && Covered(p) && Recoverable(d, p, After) && LocationsRight(d, p, After, locations) && i < |p.paths|
    requires Bound(d, JOURNAL_NAME, journalFile) && Bound(d, INVENTORY_NAME, p.newFile)
    requires HasRun(d, log, Sweep(d, PairsOf(p), i), root.entries, root.log)
    modifies root
    ensures HasRun(d, log, Sweep(d, PairsOf(p), i + 1), root.entries, root.log)
  {
    hide *;
    CoveredHasPairs(p);
    ghost var s := Sweep(d, PairsOf(p), i);
    var path := p.paths[i];
    Running(d, log, s, root.entries, root.log);
    ForwardTurn(d, p, i, locations, journalFile);
    if locations[path].Some? {
      SweepOne(root, locations[path].value, p.bindings[path], p.newFile, journalFile);
      Appended(log, s, Unlink(locations[path].value));
    }
    Running(d, log, Sweep(d, PairsOf(p), i + 1), root.entries, root.log);
  }

  /** The moves of `_recover_prune` behind the old manifest. */
  method RollBack(root: BackupRoot, p: Plan, locations: map<string, Option<string>>, journalFile: Snapshot)
    requires PlanOk(p) && Covered(p) && Recoverable(root.entries, p, Before)
    requires LocationsRight(root.entries, p, Before, locations)
    requires Bound(root.entries, JOURNAL_NAME, journalFile) && Bound(root.entries, INVENTORY_NAME, p.oldFile)
    modifies root
    ensures HasRun(old(root.entries), old(root.log), Restore(old(root.entries), PairsOf(p), |p.paths|), root.entries, root.log)
  {
    hide *;
    CoveredHasPairs(p);
    ghost var d, ps, log := root.entries, PairsOf(p), root.log;
    RestoreNone(d, ps, log);
    for i := 0 to |p.paths|
      invariant HasRun(d, log, Restore(d, ps, i), root.entries, root.log)
    {
      RollbackOne(root, p, i, locations, journalFile, d, log);
    }
  }

  /** The removals of `_recover_prune` behind the new manifest. */
  method RollForward(root: BackupRoot, p: Plan, locations: map<string, Option<string>>, journalFile: Snapshot)
    requires PlanOk(p) && Covered(p) && Recoverable(root.entries, p, After)
    requires LocationsRight(root.entries, p, After, locations)
    requires Bound(root.entries, JOURNAL_NAME, journalFile) && Bound(root.entries, INVENTORY_NAME, p.newFile)
    modifies root
    ensures HasRun(old(root.entries), old(root.log), Sweep(old(root.entries), PairsOf(p), |p.paths|), root.entries, root.log)
  {
    hide *;
    CoveredHasPairs(p);
    ghost var d, ps, log := root.entries, PairsOf(p), root.log;
    RestoreNone(d, ps, log);
    for i := 0 to |p.paths|
      invariant HasRun(d, log, Sweep(d, ps, i), root.entries, root.log)
    {
      ForwardOne(root, p, i, locations, journalFile, d, log);
    }
  }

  lemma RollbackEnd(d: Directory, p: Plan)
    requires PlanOk(p) && Recoverable(d, p, Before)
    ensures Covered(p)
    ensures var e := Run(d, Restore(d, PairsOf(p), |p.paths|)); forall x :: x in ControlNames() ==> SameAt(d, e, x)
  {
    assert Covered(p);
    PairsApart(p);
    RecoverablePlaced(d, p);
    hide PlanOk, Recoverable, Placed, Apart, Run, Restore, SameElsewhere, SameAt, ControlNames;
    RestoreImage(d, PairsOf(p), |p.paths|);
    assert SameElsewhere(d, Run(d, Restore(d, PairsOf(p), |p.paths|)), PairsOf(p), |p.paths|);
    ControlsAt(d, Run(d, Restore(d, PairsOf(p), |p.paths|)), p, |p.paths|);
  }

  lemma ForwardEnd(d: Directory, p: Plan)
    requires PlanOk(p) && Recoverable(d, p, After)
    ensures Covered(p)
    ensures var e := Run(d, Sweep(d, PairsOf(p), |p.paths|)); forall x :: x in ControlNames() ==> SameAt(d, e, x)
  {
    assert Covered(p);
    PairsApart(p);
    hide PlanOk, Recoverable, Apart, Run, Sweep, SameElsewhere, SameAt, ControlNames;
    SweepImage(d, PairsOf(p), |p.paths|);
    assert SameElsewhere(d, Run(d, Sweep(d, PairsOf(p), |p.paths|)), PairsOf(p), |p.paths|);
    ControlsAt(d, Run(d, Sweep(d, PairsOf(p), |p.paths|)), p, |p.paths|);
  }

  /** The removal of the journal that ends every recovery, after its re-checks. */
  method DropJournal(root: BackupRoot, manifestFile: Snapshot, journalFile: Snapshot)
    requires Bound(root.entries, JOURNAL_NAME, journalFile) && Bound(root.entries, INVENTORY_NAME, manifestFile)
    modifies root
    ensures root.entries == Apply(old(root.entries), Unlink(JOURNAL_NAME)) && root.log == old(root.log) + [Unlink(JOURNAL_NAME)]
  {
    hide INVENTORY_NAME, JOURNAL_NAME, SnapshotOf;
    var journalSame := root.NamedSnapshotIs(JOURNAL_NAME, journalFile);
    var manifestSame := root.NamedSnapshotIs(INVENTORY_NAME, manifestFile);
    var removed := root.RemoveControl(JOURNAL_NAME, journalFile);
    assert journalSame && manifestSame && removed;
  }

  /** `_recover_prune` behind the old manifest: the moves back, the staged manifest, the journal. */
  method FinishRollback(root: BackupRoot, p: Plan, locations: map<string, Option<string>>, journalFile: Snapshot)
    requires PlanOk(p) && Covered(p) && Recoverable(root.entries, p, Before)
    requires LocationsRight(root.entries, p, Before, locations)
    requires Bound(root.entries, JOURNAL_NAME, journalFile) && Bound(root.entries, INVENTORY_NAME, p.oldFile)
    modifies root
    ensures root.entries == Run(old(root.entries), RecoverySteps(old(root.entries), p, Before))
    ensures root.log == old(root.log) + RecoverySteps(old(root.entries), p, Before)
  {
    ghost var d, s := root.entries, Restore(root.entries, PairsOf(p), |p.paths|);
    assert Bound(d, MANIFEST_TEMP_NAME, p.newFile);
    assert RecoverySteps(d, p, Before) == s + [Unlink(MANIFEST_TEMP_NAME)] + [Unlink(JOURNAL_NAME)];
    ControlsHere();
    ControlNamesDiffer();
    RollbackEnd(d, p);
    hide *;
    RollBack(root, p, locations, journalFile);
    Running(d, old(root.log), s, root.entries, root.log);
    ghost var e := root.entries;
    StaysBound(d, e, MANIFEST_TEMP_NAME, p.newFile);
    StaysBound(d, e, JOURNAL_NAME, journalFile);
    StaysBound(d, e, INVENTORY_NAME, p.oldFile);
    var removed := root.RemoveControl(MANIFEST_TEMP_NAME, p.newFile);
    assert removed;
    UnlinkKeeps(e, MANIFEST_TEMP_NAME, JOURNAL_NAME);
    UnlinkKeeps(e, MANIFEST_TEMP_NAME, INVENTORY_NAME);
    StaysBound(e, root.entries, JOURNAL_NAME, journalFile);
    StaysBound(e, root.entries, INVENTORY_NAME, p.oldFile);
    DropJournal(root, p.oldFile, journalFile);
    RunSnoc(d, s, Unlink(MANIFEST_TEMP_NAME));
    RunSnoc(d, s + [Unlink(MANIFEST_TEMP_NAME)], Unlink(JOURNAL_NAME));
    Appended(old(root.log), s, Unlink(MANIFEST_TEMP_NAME));
    Appended(old(root.log), s + [Unlink(MANIFEST_TEMP_NAME)], Unlink(JOURNAL_NAME));
  }

  /** `_recover_prune` behind the new manifest: the removals, the journal. */
  method FinishForward(root: BackupRoot, p: Plan, locations: map<string, Option<string>>, journalFile: Snapshot)
    requires PlanOk(p) && Covered(p) && Recoverable(root.entries, p, After)
    requires LocationsRight(root.entries, p, After, locations)
    requires Bound(root.entries, JOURNAL_NAME, journalFile) && Bound(root.entries, INVENTORY_NAME, p.newFile)
    modifies root
    ensures root.entries == Run(old(root.entries), RecoverySteps(old(root.entries), p, After))
    ensures root.log == old(root.log) + RecoverySteps(old(root.entries), p, After)
  {
    ghost var d, s := root.entries, Sweep(root.entries, PairsOf(p), |p.paths|);
    assert RecoverySteps(d, p, After) == s + [Unlink(JOURNAL_NAME)];
    ControlsHere();
    ForwardEnd(d, p);
    hide *;
    RollForward(root, p, locations, journalFile);
    Running(d, old(root.log), s, root.entries, root.log);
    StaysBound(d, root.entries, JOURNAL_NAME, journalFile);
    StaysBound(d, root.entries, INVENTORY_NAME, p.newFile);
    DropJournal(root, p.newFile, journalFile);
    RunSnoc(d, s, Unlink(JOURNAL_NAME));
    Appended(old(root.log), s, Unlink(JOURNAL_NAME));
  }

  lemma SideHasFile(d: Directory, p: Plan, side: Side)
    requires ManifestSide(d, p) == Some(side)
    ensures INVENTORY_NAME in d && Bound(d, INVENTORY_NAME, if side.Before? then p.oldFile else p.newFile)
  {
    hide ValidManifest, Listed, SnapshotOf, INVENTORY_NAME;
  }

  lemma ScriptOfSide(d: Directory, p: Plan)
    requires Covered(p)
    ensures PlanScript(d, p) == match ManifestSide(d, p)
                                case None => Script([], false)
                                case Some(side) => if Recoverable(d, p, side) then Script(RecoverySteps(d, p, side), true) else Script([], false)
  {
  }

  lemma NothingRan(d: Directory, log: seq<Step>)
    ensures Run(d, []) == d && log + [] == log
  {
  }

  /** The decision, the locations and the steps of `_recover_prune`, under a validated journal. */
  method RecoverByPlan(root: BackupRoot, p: Plan, journalFile: Snapshot) returns (ok: bool)
    requires LOCK_NAME in root.entries && Bound(root.entries, JOURNAL_NAME, journalFile) && PlanOk(p) && Covered(p)
    modifies root
    ensures var s := PlanScript(old(root.entries), p);
            ok == s.ok && root.entries == Run(old(root.entries), s.steps) && root.log == old(root.log) + s.steps
  {
    ghost var d := root.entries;
    assert JOURNAL_NAME in d;
    hide *;
    NothingRan(d, root.log);
    ScriptOfSide(d, p);
    var side := ManifestRecoveryState(root, p);
    if side.Err? { return false; }
    SideHasFile(d, p, side.value);
    var locations := RecoveryLocations(root, p, side.value);
    if locations.Err? { return false; }
    if side.value.Before? {
      FinishRollback(root, p, locations.value, journalFile);
    } else {
      FinishForward(root, p, locations.value, journalFile);
    }
    ok := true;
  }

  /** `_recover_prune`. */
  method RecoverPrune(root: BackupRoot, j: PruneJournal, journalFile: Snapshot) returns (ok: bool)
    requires LOCK_NAME in root.entries && Bound(root.entries, JOURNAL_NAME, journalFile)
    modifies root
    ensures var s := JournalScript(old(root.entries), j, root.root, root.lock);
            ok == s.ok && root.entries == Run(old(root.entries), s.steps) && root.log == old(root.log) + s.steps
  {
    ghost var d := root.entries;
    assert !JournalOk(j, root.root, root.lock) ==> JournalScript(d, j, root.root, root.lock) == Script([], false);
    hide *;
    NothingRan(d, root.log);
    var plan := ValidateJournal(j, root.root, root.lock);
    if plan.Err? { return false; }
    ScriptOfPlan(d, j, plan.value, root.root, root.lock);
    ok := RecoverByPlan(root, plan.value, journalFile);
  }

  /** `_cleanup_unpublished_controls`, one name: a regular file goes, anything else is an error. */
  method CleanupControl(root: BackupRoot, name: string) returns (ok: bool)
    modifies root
    ensures ok <==> (name in old(root.entries) ==> old(root.entries[name].Regular?))
    ensures var steps := if ok then RemoveIfPresent(old(root.entries), name) else [];
            root.entries == Run(old(root.entries), steps) && root.log == old(root.log) + steps
  {
    ghost var d := root.entries;
    NothingRan(d, root.log);
    RunSnoc(d, [], Unlink(name));
    assert [] + [Unlink(name)] == [Unlink(name)];
    hide SnapshotOf, Run;
    var snapshot := root.EntrySnapshot(name);
    if snapshot.Err? { return false; }
    if snapshot.value.Some? {
      var removed := root.RemoveControl(name, snapshot.value.value);
      assert removed;
    }
    ok := true;
  }

  lemma RanTwice(d: Directory, log: seq<Step>, a: seq<Step>, b: seq<Step>)
    ensures Run(Run(d, a), b) == Run(d, a + b) && log + a + b == log + (a + b)
  {
    RunConcat(d, a, b);
    hide *;
    AppendedAll(log, a, b);
  }

  lemma AppendedAll(log: seq<Step>, a: seq<Step>, b: seq<Step>)
    ensures log + a + b == log + (a + b)
  {
  }

  lemma OtherNameKept(d: Directory, name: string, other: string)
    requires name != other
    ensures SameAt(d, Run(d, RemoveIfPresent(d, name)), other)
    ensures RemoveIfPresent(Run(d, RemoveIfPresent(d, name)), other) == RemoveIfPresent(d, other)
  {
    RunSnoc(d, [], Unlink(name));
    assert [] + [Unlink(name)] == [Unlink(name)];
  }

  /** `_cleanup_unpublished_controls`. */
  method CleanupUnpublishedControls(root: BackupRoot) returns (ok: bool)
    modifies root
    ensures var s := CleanupScript(old(root.entries));
            ok == s.ok && root.entries == Run(old(root.entries), s.steps) && root.log == old(root.log) + s.steps
  {
    ghost var d, log := root.entries, root.log;
    ghost var a := RemoveIfPresent(d, JOURNAL_TEMP_NAME);
    ghost var b := RemoveIfPresent(d, MANIFEST_TEMP_NAME);
    ControlNamesDiffer();
    hide Run, RemoveIfPresent, INVENTORY_NAME, LOCK_NAME, JOURNAL_NAME, JOURNAL_TEMP_NAME, MANIFEST_TEMP_NAME;
    NothingRan(d, log);
    OtherNameKept(d, JOURNAL_TEMP_NAME, MANIFEST_TEMP_NAME);
    ok := CleanupControl(root, JOURNAL_TEMP_NAME);
    if !ok { return; }
    RanTwice(d, log, a, b);
    RanTwice(d, log, a, []);
    NothingRan(Run(d, a), a);
    ok := CleanupControl(root, MANIFEST_TEMP_NAME);
  }

  /** `_recover_if_needed`. */
  method RecoverIfNeeded(root: BackupRoot) returns (ok: bool)
    requires LOCK_NAME in root.entries
    modifies root
    ensures var s := RecoveryScript(old(root.entries), root.root, root.lock);
            ok == s.ok && root.entries == Run(old(root.entries), s.steps) && root.log == old(root.log) + s.steps
  {
    ghost var d, log := root.entries, root.log;
    hide Run, CleanupScript, JournalScript, SnapshotOf, INVENTORY_NAME, LOCK_NAME, JOURNAL_NAME;
    NothingRan(d, log);
    var snapshot := root.EntrySnapshot(JOURNAL_NAME);
    if snapshot.Err? { return false; }
    if snapshot.value.None? {
      ok := CleanupUnpublishedControls(root);
      return;
    }
    var content := root.entries[JOURNAL_NAME].content;
    if !content.Journal? { return false; }
    ok := RecoverPrune(root, content.journal, snapshot.value.value);
  }

  /** `validated_inventory`: recover, then list. An error after recovery leaves what recovery left. */
  method ValidatedInventory(root: BackupRoot) returns (r: Result<seq<Artifact>>)
    requires LOCK_NAME in root.entries
    modifies root
    ensures var s := RecoveryScript(old(root.entries), root.root, root.lock);
            && root.entries == Run(old(root.entries), s.steps) && root.log == old(root.log) + s.steps
            && (r.Ok? <==> s.ok && InventoryOk(root.entries)) && (r.Ok? ==> r.value == Listed(root.entries))
  {
    hide *;
    var recovered := RecoverIfNeeded(root);
    if !recovered { return Err(InventoryError("prune recovery failed")); }
    var v := root.ValidateInventory();
    if v.Err? { return Err(v.error); }
    r := Ok(v.value.artifacts);
  }
}
