/** The prune journal: when `_validate_journal` accepts one, what it then describes, and the journal that a
    prune writes. */
module PruneJournals {
  import opened Basics
  import opened Ordering
  import opened Timestamps
  import opened Inventory

  predicate SnapshotRecord(s: Snapshot) {
    s.device >= 0 && s.inode > 0 && s.size >= 0 && HexDigest(s.sha256)
  }

  predicate IdentityRecord(i: Identity) { i.device >= 0 && i.inode > 0 }

  predicate BindingOk(b: Binding, a: Artifact) {
    && b.path == a.path && SnapshotRecord(b.snapshot)
    && b.snapshot.size == a.size && b.snapshot.sha256 == a.sha256
  }

  ghost predicate BindingsOk(b: seq<Binding>, s: seq<Artifact>) {
    |b| == |s| && forall k :: 0 <= k < |s| ==> BindingOk(b[k], s[k])
  }

  ghost predicate QuarantineOk(q: seq<Quarantine>, paths: seq<string>, operationId: string) {
    |q| == |paths| && forall k :: 0 <= k < |paths| ==> q[k] == Quarantine(paths[k], QuarantineName(operationId, k))
  }

  function SetOf(s: seq<string>): set<string> { set p | p in s }

  predicate ManifestsOk(j: PruneJournal) {
    && ValidManifest(j.oldManifest) && ValidManifest(j.newManifest)
    && Canonical(j.oldManifest) == j.oldManifest && Canonical(j.newManifest) == j.newManifest
    && ManifestDigest(j.oldManifest) == j.oldDigest && ManifestDigest(j.newManifest) == j.newDigest
  }

  predicate PathsOk(j: PruneJournal)
    requires UtcText(j.cutoff)
  {
    && |j.paths| > 0
    && j.paths == EligiblePaths(j.oldManifest, j.cutoff)
    && j.newManifest == Retained(j.oldManifest, SetOf(j.paths))
  }

  /** The journals `_validate_journal` accepts under a root and a lock with these identities. */
  ghost predicate JournalOk(j: PruneJournal, root: Identity, lock: Identity) {
    && OperationId(j.operationId) && UtcText(j.cutoff)
    && HexDigest(j.oldDigest) && HexDigest(j.newDigest)
    && ManifestsOk(j) && PathsOk(j)
    && IdentityRecord(j.root) && IdentityRecord(j.lock) && j.root == root && j.lock == lock
    && SnapshotRecord(j.oldFile) && SnapshotRecord(j.newFile)
    && j.newFile.size == Size(ManifestPayload(j.newManifest)) && j.newFile.sha256 == j.newDigest
    && BindingsOk(j.bindings, j.oldManifest)
    && QuarantineOk(j.quarantine, j.paths, j.operationId)
  }

  /** A validated journal, with its bindings as look-up tables. */
  datatype Plan = Plan(before: seq<Artifact>, after: seq<Artifact>, paths: seq<string>, oldFile: Snapshot, newFile: Snapshot,
                       bindings: map<string, Snapshot>, quarantine: map<string, string>)
  {
    predicate Removes(path: string) { path in paths }
  }

  /** What recovery relies on: the removed paths are listed artifacts, the tables cover the old manifest and
      the removed paths, and no quarantine name is an artifact name, a control name or shared. */
  ghost predicate PlanOk(p: Plan) {
    && ValidManifest(p.before) && ValidManifest(p.after)
    && Canonical(p.before) == p.before && Canonical(p.after) == p.after
    && |p.paths| > 0 && NoRepeats(p.paths) && SetOf(p.paths) <= PathsOf(p.before)
    && p.after == Retained(p.before, SetOf(p.paths))
    && p.newFile.size == Size(ManifestPayload(p.after)) && p.newFile.sha256 == ManifestDigest(p.after)
    && p.bindings.Keys == PathsOf(p.before)
    && (forall k :: 0 <= k < |p.before| ==>
          p.bindings[p.before[k].path].size == p.before[k].size && p.bindings[p.before[k].path].sha256 == p.before[k].sha256)
    && p.quarantine.Keys == SetOf(p.paths)
    && (forall x :: x in p.quarantine ==> !ArtifactName(p.quarantine[x]) && p.quarantine[x] !in ControlNames())
    && (forall x, y :: x in p.quarantine && y in p.quarantine && p.quarantine[x] == p.quarantine[y] ==> x == y)
  }

  /** The plan `p` says what the journal `j` says. */
  ghost predicate Describes(p: Plan, j: PruneJournal) {
    && p.before == j.oldManifest && p.after == j.newManifest && p.paths == j.paths
    && p.oldFile == j.oldFile && p.newFile == j.newFile
    && p.bindings.Keys == PathsOf(j.oldManifest) && |j.bindings| == |j.oldManifest|
    && (forall k :: 0 <= k < |j.oldManifest| ==> p.bindings[j.oldManifest[k].path] == j.bindings[k].snapshot)
    && p.quarantine.Keys == SetOf(j.paths)
    && (forall k :: 0 <= k < |j.paths| ==> p.quarantine[j.paths[k]] == QuarantineName(j.operationId, k))
  }

  /** A journal fixes its plan. */
  lemma DescribesUnique(p: Plan, q: Plan, j: PruneJournal)
    requires Describes(p, j) && Describes(q, j)
    ensures p == q
  {
    forall x | x in p.bindings ensures p.bindings[x] == q.bindings[x] {
      var k :| 0 <= k < |j.oldManifest| && j.oldManifest[k].path == x;
    }
    forall x | x in p.quarantine ensures p.quarantine[x] == q.quarantine[x] {
      var k :| 0 <= k < |j.paths| && j.paths[k] == x;
    }
    assert p.bindings == q.bindings && p.quarantine == q.quarantine;
  }

  lemma PathsOfLast(s: seq<Artifact>)
    requires |s| > 0
    ensures var n := |s| - 1; PathsOf(s) == PathsOf(s[..n]) + {s[n].path} && s == s[..n] + [s[n]]
  {
  }

  ghost function BindingsMap(s: seq<Artifact>, b: seq<Binding>): (m: map<string, Snapshot>)
    requires DistinctPaths(s) && |b| == |s|
    ensures m.Keys == PathsOf(s) && forall k :: 0 <= k < |s| ==> s[k].path in m && m[s[k].path] == b[k].snapshot
  {
    if |s| == 0 then map[]
    else
      var n := |s| - 1;
      PathsOfLast(s);
      BindingsMap(s[..n], b[..n])[s[n].path := b[n].snapshot]
  }

  lemma SetOfLast(paths: seq<string>)
    requires |paths| > 0 && NoRepeats(paths)
    ensures var n := |paths| - 1; NoRepeats(paths[..n]) && SetOf(paths) == SetOf(paths[..n]) + {paths[n]}
    ensures forall k :: 0 <= k < |paths| - 1 ==> paths[k] != paths[|paths| - 1]
  {
    assert paths == paths[..|paths| - 1] + [paths[|paths| - 1]];
  }

  /** Each path with the name of its index. */
  ghost function Numbered(paths: seq<string>, name: nat -> string): (m: map<string, string>)
    requires NoRepeats(paths)
    ensures m.Keys == SetOf(paths) && forall k :: 0 <= k < |paths| ==> m[paths[k]] == name(k)
  {
    if |paths| == 0 then map[]
    else
      var n := |paths| - 1;
      SetOfLast(paths);
      Numbered(paths[..n], name)[paths[n] := name(n)]
  }

  ghost function QuarantineMap(paths: seq<string>, operationId: string): (m: map<string, string>)
    requires NoRepeats(paths)
    ensures m.Keys == SetOf(paths) && forall k :: 0 <= k < |paths| ==> m[paths[k]] == QuarantineName(operationId, k)
  {
    Numbered(paths, (k: nat) => QuarantineName(operationId, k))
  }

  /** The plan of a journal with sorted paths and one binding per artifact. */
  ghost function PlanOf(j: PruneJournal): (p: Plan)
    requires DistinctPaths(j.oldManifest) && |j.bindings| == |j.oldManifest| && NoRepeats(j.paths)
    ensures Describes(p, j)
  {
    Plan(j.oldManifest, j.newManifest, j.paths, j.oldFile, j.newFile,
         BindingsMap(j.oldManifest, j.bindings), QuarantineMap(j.paths, j.operationId))
  }

  lemma PathsAreSorted(j: PruneJournal)
    requires UtcText(j.cutoff) && ManifestsOk(j) && PathsOk(j)
    ensures StrictlySorted(j.paths, Less) && NoRepeats(j.paths) && SetOf(j.paths) <= PathsOf(j.oldManifest)
    ensures DistinctPaths(j.oldManifest) && forall p :: p in j.paths ==> ArtifactName(p)
    ensures forall i :: 0 <= i < |j.oldManifest| ==> (j.oldManifest[i].path in SetOf(j.paths) <==> Due(j.oldManifest[i], j.cutoff))
  {
    hide ValidArtifact, Canonical, Retained, ManifestDigest, Due;
    EligibleProperties(j.oldManifest, j.cutoff);
    forall i, k | 0 <= i < k < |j.paths| ensures j.paths[i] != j.paths[k] {
      assert Less(j.paths[i], j.paths[k]);
      LessIrreflexive(j.paths[i]);
    }
  }

  /** Every journal that validates describes a sound plan. */
  lemma DescribedPlanOk(p: Plan, j: PruneJournal, root: Identity, lock: Identity)
    requires JournalOk(j, root, lock) && Describes(p, j)
    ensures PlanOk(p)
  {
    PathsAreSorted(j);
    forall k | 0 <= k < |p.before| ensures p.bindings[p.before[k].path].size == p.before[k].size && p.bindings[p.before[k].path].sha256 == p.before[k].sha256 {
      assert BindingOk(j.bindings[k], j.oldManifest[k]);
    }
    forall x | x in p.quarantine ensures !ArtifactName(p.quarantine[x]) && p.quarantine[x] !in ControlNames() {
      var k :| 0 <= k < |j.paths| && j.paths[k] == x;
      assert x in j.paths;
      NamesDisjoint(x, j.operationId, k);
      if ArtifactName(p.quarantine[x]) { NamesDisjoint(p.quarantine[x], j.operationId, k); }
    }
    forall x, y | x in p.quarantine && y in p.quarantine && p.quarantine[x] == p.quarantine[y] ensures x == y {
      var k :| 0 <= k < |j.paths| && j.paths[k] == x;
      var m :| 0 <= m < |j.paths| && j.paths[m] == y;
      QuarantineInjective(j.operationId, k, m);
    }
  }

  // ----- The validator -----

  method BindingTable(bindings: seq<Binding>, s: seq<Artifact>) returns (r: Result<map<string, Snapshot>>)
    requires DistinctPaths(s)
    ensures r.Ok? <==> BindingsOk(bindings, s)
    ensures r.Ok? ==> r.value.Keys == PathsOf(s) && forall k :: 0 <= k < |s| ==> r.value[s[k].path] == bindings[k].snapshot
  {
    if |bindings| != |s| { return Err(InventoryError("prune journal artifact bindings are invalid")); }
    var table: map<string, Snapshot> := map[];
    for k := 0 to |s|
      invariant forall i :: 0 <= i < k ==> BindingOk(bindings[i], s[i])
      invariant table.Keys == PathsOf(s[..k])
      invariant forall i :: 0 <= i < k ==> s[i].path in table && table[s[i].path] == bindings[i].snapshot
    {
      if !BindingOk(bindings[k], s[k]) {
        return Err(InventoryError("prune journal artifact binding does not match its manifest"));
      }
      table := table[s[k].path := bindings[k].snapshot];
      assert s[..k + 1] == s[..k] + [s[k]];
    }
    assert s[..|s|] == s;
    r := Ok(table);
  }

  method QuarantineTable(q: seq<Quarantine>, paths: seq<string>, operationId: string) returns (r: Result<map<string, string>>)
    requires NoRepeats(paths)
    ensures r.Ok? <==> QuarantineOk(q, paths, operationId)
    ensures r.Ok? ==> r.value.Keys == SetOf(paths)
    ensures r.Ok? ==> forall k :: 0 <= k < |paths| ==> r.value[paths[k]] == QuarantineName(operationId, k)
  {
    if |q| != |paths| { return Err(InventoryError("prune journal quarantine bindings are invalid")); }
    var table: map<string, string> := map[];
    for k := 0 to |paths|
      invariant forall i :: 0 <= i < k ==> q[i] == Quarantine(paths[i], QuarantineName(operationId, i))
      invariant table.Keys == SetOf(paths[..k])
      invariant forall i :: 0 <= i < k ==> paths[i] in table && table[paths[i]] == QuarantineName(operationId, i)
    {
      if q[k] != Quarantine(paths[k], QuarantineName(operationId, k)) {
        return Err(InventoryError("prune journal quarantine bindings are invalid"));
      }
      table := table[paths[k] := q[k].name];
      assert paths[..k + 1] == paths[..k] + [paths[k]];
    }
    assert paths[..|paths|] == paths;
    r := Ok(table);
  }

  method IsOperationId(s: string) returns (ok: bool)
    ensures ok <==> OperationId(s)
  {
    ok := CanonicalUuid(s) && exists i :: 0 <= i < 36 && s[i] != '0' && s[i] != '-';
  }

  /** `_validate_journal`: accepts exactly the journals of `JournalOk`, and returns their plan. */
  method ValidateJournal(j: PruneJournal, root: Identity, lock: Identity) returns (r: Result<Plan>)
    ensures r.Ok? <==> JournalOk(j, root, lock)
    ensures r.Ok? ==> Describes(r.value, j)
  {
    hide UtcText, ValidManifest, Canonical, Retained, EligiblePaths;
    var idOk := IsOperationId(j.operationId);
    if !idOk || !UtcText(j.cutoff) || !HexDigest(j.oldDigest) || !HexDigest(j.newDigest) {
      return Err(InventoryError("prune journal shape is invalid"));
    }
    var oldItems := ValidateManifestData(j.oldManifest);
    var newItems := ValidateManifestData(j.newManifest);
    if oldItems.Err? || newItems.Err? || j.oldManifest != oldItems.value || j.newManifest != newItems.value {
      return Err(InventoryError("prune journal manifest is not canonical"));
    }
    if ManifestDigest(oldItems.value) != j.oldDigest || ManifestDigest(newItems.value) != j.newDigest {
      return Err(InventoryError("prune journal manifest digest is invalid"));
    }
    if !PathsOk(j) { return Err(InventoryError("prune journal path set is not bound to its cutoff")); }
    if !IdentityRecord(j.root) || !IdentityRecord(j.lock) || j.root != root || j.lock != lock {
      return Err(InventoryError("prune journal is bound to a different root or lock"));
    }
    if !SnapshotRecord(j.oldFile) || !SnapshotRecord(j.newFile)
       || j.newFile.size != Size(ManifestPayload(newItems.value)) || j.newFile.sha256 != j.newDigest {
      return Err(InventoryError("prune journal new manifest binding is invalid"));
    }
    PathsAreSorted(j);
    var bindings := BindingTable(j.bindings, j.oldManifest);
    if bindings.Err? { return Err(bindings.error); }
    var quarantine := QuarantineTable(j.quarantine, j.paths, j.operationId);
    if quarantine.Err? { return Err(quarantine.error); }
    r := Ok(Plan(j.oldManifest, j.newManifest, j.paths, j.oldFile, j.newFile, bindings.value, quarantine.value));
  }

  // ----- The printer -----

  function BindingsFor(s: seq<Artifact>, snapshots: map<string, Snapshot>): (r: seq<Binding>)
    requires PathsOf(s) <= snapshots.Keys
    ensures |r| == |s| && forall k :: 0 <= k < |s| ==> r[k] == Binding(s[k].path, snapshots[s[k].path])
  {
    seq(|s|, k requires 0 <= k < |s| && s[k].path in snapshots => Binding(s[k].path, snapshots[s[k].path]))
  }

  function QuarantineFor(paths: seq<string>, operationId: string): (r: seq<Quarantine>)
    ensures |r| == |paths| && forall k :: 0 <= k < |paths| ==> r[k] == Quarantine(paths[k], QuarantineName(operationId, k))
  {
    seq(|paths|, k requires 0 <= k < |paths| => Quarantine(paths[k], QuarantineName(operationId, k)))
  }

  /** The journal `prune_inventory` builds. */
  function JournalFor(operationId: string, cutoff: string, root: Identity, lock: Identity, artifacts: seq<Artifact>,
                      paths: seq<string>, oldFile: Snapshot, newFile: Snapshot, snapshots: map<string, Snapshot>): PruneJournal
    requires PathsOf(artifacts) <= snapshots.Keys
  {
    var retained := Retained(artifacts, SetOf(paths));
    PruneJournal(operationId, cutoff, root, lock, ManifestDigest(artifacts), ManifestDigest(retained), paths,
                 Canonical(artifacts), Canonical(retained), oldFile, newFile,
                 BindingsFor(artifacts, snapshots), QuarantineFor(paths, operationId))
  }

  /** The printer and the validator agree: a journal built from validated, ordered artifacts and the paths due
      at its cutoff is accepted under the same root and lock. */
  lemma PrintedJournalValidates(operationId: string, cutoff: string, root: Identity, lock: Identity, artifacts: seq<Artifact>,
                                paths: seq<string>, oldFile: Snapshot, newFile: Snapshot, snapshots: map<string, Snapshot>)
    requires OperationId(operationId) && UtcText(cutoff) && IdentityRecord(root) && IdentityRecord(lock)
    requires ValidManifest(artifacts) && Canonical(artifacts) == artifacts
    requires paths == EligiblePaths(artifacts, cutoff) && |paths| > 0
    requires SnapshotRecord(oldFile) && SnapshotRecord(newFile)
    requires newFile.size == Size(ManifestPayload(Retained(artifacts, SetOf(paths))))
    requires newFile.sha256 == ManifestDigest(Retained(artifacts, SetOf(paths)))
    requires snapshots.Keys == PathsOf(artifacts)
    requires forall k :: 0 <= k < |artifacts| ==>
               var s := snapshots[artifacts[k].path];
               SnapshotRecord(s) && s.size == artifacts[k].size && s.sha256 == artifacts[k].sha256
    ensures JournalOk(JournalFor(operationId, cutoff, root, lock, artifacts, paths, oldFile, newFile, snapshots), root, lock)
  {
    hide *;
    RetainedProperties(artifacts, SetOf(paths));
    JournalFields(operationId, cutoff, root, lock, artifacts, paths, oldFile, newFile, snapshots);
    JournalFits(JournalFor(operationId, cutoff, root, lock, artifacts, paths, oldFile, newFile, snapshots), root, lock, snapshots);
  }

  lemma JournalFields(operationId: string, cutoff: string, root: Identity, lock: Identity, artifacts: seq<Artifact>,
                      paths: seq<string>, oldFile: Snapshot, newFile: Snapshot, snapshots: map<string, Snapshot>)
    requires PathsOf(artifacts) <= snapshots.Keys && Canonical(artifacts) == artifacts
    requires Canonical(Retained(artifacts, SetOf(paths))) == Retained(artifacts, SetOf(paths))
    ensures var j := JournalFor(operationId, cutoff, root, lock, artifacts, paths, oldFile, newFile, snapshots);
            && j.operationId == operationId && j.cutoff == cutoff && j.root == root && j.lock == lock && j.paths == paths
            && j.oldManifest == artifacts && j.newManifest == Retained(artifacts, SetOf(paths))
            && j.oldDigest == ManifestDigest(artifacts) && j.newDigest == ManifestDigest(j.newManifest)
            && j.oldFile == oldFile && j.newFile == newFile
            && j.bindings == BindingsFor(artifacts, snapshots) && j.quarantine == QuarantineFor(paths, operationId)
  {
    hide Canonical, Retained, ManifestDigest, SetOf, PathsOf, BindingsFor, QuarantineFor;
  }

  lemma JournalFits(j: PruneJournal, root: Identity, lock: Identity, snapshots: map<string, Snapshot>)
    requires OperationId(j.operationId) && UtcText(j.cutoff) && IdentityRecord(root) && IdentityRecord(lock) && j.root == root && j.lock == lock
    requires ValidManifest(j.oldManifest) && Canonical(j.oldManifest) == j.oldManifest && j.oldDigest == ManifestDigest(j.oldManifest)
    requires ValidManifest(j.newManifest) && Canonical(j.newManifest) == j.newManifest && j.newDigest == ManifestDigest(j.newManifest)
    requires j.newManifest == Retained(j.oldManifest, SetOf(j.paths)) && j.paths == EligiblePaths(j.oldManifest, j.cutoff) && |j.paths| > 0
    requires SnapshotRecord(j.oldFile) && SnapshotRecord(j.newFile)
    requires j.newFile.size == Size(ManifestPayload(j.newManifest)) && j.newFile.sha256 == j.newDigest
    requires PathsOf(j.oldManifest) == snapshots.Keys && j.bindings == BindingsFor(j.oldManifest, snapshots)
    requires j.quarantine == QuarantineFor(j.paths, j.operationId)
    requires forall k :: 0 <= k < |j.oldManifest| ==>
               var s := snapshots[j.oldManifest[k].path];
               SnapshotRecord(s) && s.size == j.oldManifest[k].size && s.sha256 == j.oldManifest[k].sha256
    ensures JournalOk(j, root, lock)
  {
    hide UtcText, OperationId, ValidManifest, Canonical, Retained, EligiblePaths, PathsOf, SetOf, Size, QuarantineName;
    assert BindingsOk(j.bindings, j.oldManifest);
  }

  // ----- The inverse -----

  lemma BindingsRestored(s: seq<Artifact>, b: seq<Binding>)
    requires DistinctPaths(s) && BindingsOk(b, s)
    ensures PathsOf(s) <= BindingsMap(s, b).Keys && BindingsFor(s, BindingsMap(s, b)) == b
  {
    var m := BindingsMap(s, b);
    forall k | 0 <= k < |s| ensures BindingsFor(s, m)[k] == b[k] {
      assert BindingOk(b[k], s[k]) && m[s[k].path] == b[k].snapshot;
    }
  }

  /** The validator accepts nothing but printed journals: every valid journal is the one that the prune it describes
      writes under the same root and lock, from its own manifest, cutoff and bindings. */
  lemma ValidJournalIsPrinted(j: PruneJournal, root: Identity, lock: Identity)
    requires JournalOk(j, root, lock)
    ensures DistinctPaths(j.oldManifest) && |j.bindings| == |j.oldManifest|
    ensures var snapshots := BindingsMap(j.oldManifest, j.bindings);
            && PathsOf(j.oldManifest) <= snapshots.Keys
            && j == JournalFor(j.operationId, j.cutoff, root, lock, j.oldManifest, EligiblePaths(j.oldManifest, j.cutoff), j.oldFile, j.newFile, snapshots)
            && forall k :: 0 <= k < |j.oldManifest| ==>
                 var s := snapshots[j.oldManifest[k].path];
                 SnapshotRecord(s) && s.size == j.oldManifest[k].size && s.sha256 == j.oldManifest[k].sha256
  {
    hide UtcText, OperationId, Canonical, Retained, EligiblePaths, Size, SetOf, PathsOf, HexDigest, ValidArtifact, QuarantineName, BindingsMap;
    BindingsRestored(j.oldManifest, j.bindings);
    assert QuarantineFor(j.paths, j.operationId) == j.quarantine;
    forall k | 0 <= k < |j.oldManifest|
      ensures var s := BindingsMap(j.oldManifest, j.bindings)[j.oldManifest[k].path];
              SnapshotRecord(s) && s.size == j.oldManifest[k].size && s.sha256 == j.oldManifest[k].sha256
    {
      assert BindingOk(j.bindings[k], j.oldManifest[k]);
    }
  }

  /** A valid journal has an operation identifier of lower-case hex digits in five groups, not all zero; and the staged
      manifest it announces is the canonical text of its new list. */
  lemma ValidJournalShape(j: PruneJournal, root: Identity, lock: Identity)
    requires JournalOk(j, root, lock)
    ensures var s := j.operationId;
            && |s| == 36 && s[8] == s[13] == s[18] == s[23] == '-'
            && (forall i :: 0 <= i < 36 && i != 8 && i != 13 && i != 18 && i != 23 ==> '0' <= s[i] <= '9' || 'a' <= s[i] <= 'f')
            && exists i :: 0 <= i < 36 && s[i] != '-' && s[i] != '0'
    ensures j.newFile.sha256 == Sha256(Manifest(j.newManifest, 0)) && j.newFile.size == Size(Manifest(j.newManifest, 0))
    ensures j.newFile.inode > 0 && j.oldFile.inode > 0
  {
    hide UtcText, Canonical, PathsOk, BindingsOk, QuarantineOk, ValidManifest, Size;
  }

  /** A journal is valid under one root and one lock only. */
  lemma JournalBindsItsRoot(j: PruneJournal, root: Identity, lock: Identity, otherRoot: Identity, otherLock: Identity)
    requires JournalOk(j, root, lock) && JournalOk(j, otherRoot, otherLock)
    ensures root == otherRoot && lock == otherLock
  {
    hide UtcText, OperationId, ManifestsOk, PathsOk, BindingsOk, QuarantineOk;
  }
}
