/** The backup directory as a map from names to entries, and the durable steps that change it. Every step is
    flushed before the next begins, so a crash leaves the directory after some prefix of the steps. */
module BackupDirectory {
  import opened Basics
  import opened Timestamps
  import opened Inventory

  /** `Create` makes a file whose bytes may still be incomplete; `Fill` is the flush of the full payload. */
  datatype Step =
    | Create(name: string, entry: Entry)
    | Fill(name: string, content: Content)
    | Move(source: string, target: string)
    | Unlink(name: string)

  function Apply(d: Directory, s: Step): Directory {
    match s
    case Create(name, entry) => d[name := entry]
    case Fill(name, content) =>
      if name in d && d[name].Regular? then d[name := d[name].(content := content)] else d
    case Move(source, target) =>
      if source in d then (d - {source})[target := d[source]] else d
    case Unlink(name) => d - {name}
  }

  /** The directory after all of `steps`. */
  function Run(d: Directory, steps: seq<Step>): Directory {
    if |steps| == 0 then d else Apply(Run(d, steps[..|steps| - 1]), steps[|steps| - 1])
  }

  lemma RunSnoc(d: Directory, steps: seq<Step>, s: Step)
    ensures Run(d, steps + [s]) == Apply(Run(d, steps), s)
  {
    assert (steps + [s])[..|steps|] == steps;
  }

  lemma {:induction false} RunConcat(d: Directory, a: seq<Step>, b: seq<Step>)
    ensures Run(d, a + b) == Run(Run(d, a), b)
  {
    if |b| == 0 {
      assert a + b == a;
    } else {
      var c := b[..|b| - 1];
      RunConcat(d, a, c);
      assert (a + b)[..|a + b| - 1] == a + c;
    }
  }

  // ----- What the readers of the directory see -----

  /** Whether `name` is present as a regular file with this snapshot. */
  predicate Bound(d: Directory, name: string, s: Snapshot) {
    name in d && d[name].Regular? && SnapshotOf(d[name]) == s
  }

  predicate ReadsManifest(d: Directory) {
    INVENTORY_NAME in d && d[INVENTORY_NAME].Regular? && d[INVENTORY_NAME].content.Manifest?
  }

  /** The directories `_validate_inventory` accepts. */
  ghost predicate InventoryOk(d: Directory) {
    if INVENTORY_NAME !in d then d.Keys == {LOCK_NAME}
    else
      && ReadsManifest(d)
      && var s := d[INVENTORY_NAME].content.artifacts;
      && ValidManifest(s)
      && AllMatch(d, s)
      && d.Keys == {LOCK_NAME, INVENTORY_NAME} + PathsOf(s)
  }

  /** The artifact's file is there with the size and digest its manifest line gives. */
  predicate Matches(d: Directory, a: Artifact) {
    && a.path in d && d[a.path].Regular?
    && Size(d[a.path].content) == a.size && Sha256(d[a.path].content) == a.sha256
  }

  predicate AllMatch(d: Directory, s: seq<Artifact>) { forall a :: a in s ==> Matches(d, a) }

  /** The artifacts a directory lists, in manifest order. */
  function Listed(d: Directory): seq<Artifact> {
    if ReadsManifest(d) then Canonical(d[INVENTORY_NAME].content.artifacts) else []
  }

  /** Validation notices every change: of two directories it accepts with the same manifest, neither has a file more,
      and every listed file has the same content in both. */
  lemma ManifestFixesContents(d: Directory, e: Directory)
    requires InventoryOk(d) && InventoryOk(e) && ReadsManifest(d) && ReadsManifest(e)
    requires d[INVENTORY_NAME].content.artifacts == e[INVENTORY_NAME].content.artifacts
    ensures d.Keys == e.Keys
    ensures forall a :: a in d[INVENTORY_NAME].content.artifacts ==>
              a.path in d && d[a.path].Regular? && e[a.path].Regular? && d[a.path].content == e[a.path].content
  {
    hide ValidManifest, PathsOf;
    var s := d[INVENTORY_NAME].content.artifacts;
    forall a | a in s ensures a.path in d && d[a.path].Regular? && e[a.path].Regular? && d[a.path].content == e[a.path].content {
      assert Matches(d, a) && Matches(e, a);
    }
  }

  /** What stands in an accepted root: besides the lock and the manifest only regular files with flat, unreserved names
      that stay inside the root, each on exactly one line of the manifest, with the size and digest that line gives. */
  lemma FilesOfInventory(d: Directory, name: string) returns (a: Artifact)
    requires InventoryOk(d) && name in d && name != LOCK_NAME && name != INVENTORY_NAME
    ensures ReadsManifest(d) && a in d[INVENTORY_NAME].content.artifacts && a.path == name
    ensures forall b :: b in d[INVENTORY_NAME].content.artifacts && b.path == name ==> b == a
    ensures d[name].Regular? && Size(d[name].content) == a.size && Sha256(d[name].content) == a.sha256
    ensures |name| > 0 && name != "." && name != ".." && !(".edu-agent-backup-" <= name)
    ensures forall i :: 0 <= i < |name| ==> name[i] != '/' && name[i] != '\\' && name[i] as int >= 32 && name[i] as int != 127
    ensures a.generation >= 1 && UtcText(a.createdAt) && |a.wrappedKeyId| == 36
  {
    hide UtcText;
    var s := d[INVENTORY_NAME].content.artifacts;
    assert name in PathsOf(s);
    var i :| 0 <= i < |s| && s[i].path == name;
    a := s[i];
    assert ValidArtifact(a) && Matches(d, a);
    hide ValidArtifact, Matches;
    forall b | b in s && b.path == name ensures b == a {
      var k :| 0 <= k < |s| && s[k] == b;
    }
  }

  datatype Validated = Validated(artifacts: seq<Artifact>, snapshots: map<string, Snapshot>,
                                 file: Option<Snapshot>, digest: Digest)

  /** The files of the managed backup root under an exclusive lock, updated in place. */
  class BackupRoot {
    const root: Identity
    const lock: Identity
    var entries: Directory
    ghost var log: seq<Step>

    constructor (root: Identity, lock: Identity, entries: Directory)
      ensures this.root == root && this.lock == lock && this.entries == entries && log == []
    {
      this.root, this.lock, this.entries, this.log := root, lock, entries, [];
    }

    // ----- Reading -----

    /** `_entry_snapshot`: absent, a regular file's snapshot, or an error for anything else. */
    method EntrySnapshot(name: string) returns (r: Result<Option<Snapshot>>)
      ensures r.Ok? <==> (name in entries ==> entries[name].Regular?)
      ensures r.Ok? ==> r.value == if name in entries then Some(SnapshotOf(entries[name])) else None
    {
      if name !in entries { return Ok(None); }
      var e := entries[name];
      if e.Irregular? { return Err(InventoryError("must be a single-link regular file")); }
      r := Ok(Some(SnapshotOf(e)));
    }

    method NamedSnapshotIs(name: string, expected: Snapshot) returns (same: bool)
      ensures same <==> Bound(entries, name, expected)
    {
      var s := EntrySnapshot(name);
      same := s.Ok? && s.value == Some(expected);
    }

    /** The pass of `_validate_inventory` over the artifact files. */
    method SnapshotArtifacts(items: seq<Artifact>) returns (r: Result<map<string, Snapshot>>)
      ensures r.Ok? <==> AllMatch(entries, items)
      ensures r.Ok? ==> r.value.Keys == PathsOf(items)
      ensures r.Ok? ==> forall p :: p in r.value ==> Bound(entries, p, r.value[p])
    {
      var snapshots: map<string, Snapshot> := map[];
      for k := 0 to |items|
        invariant snapshots.Keys == PathsOf(items[..k])
        invariant AllMatch(entries, items[..k])
        invariant forall p :: p in snapshots ==> Bound(entries, p, snapshots[p])
      {
        var item := items[k];
        if !Matches(entries, item) {
          return Err(InventoryError("backup artifact does not match inventory"));
        }
        snapshots := snapshots[item.path := SnapshotOf(entries[item.path])];
        assert items[..k + 1] == items[..k] + [item];
      }
      assert items[..|items|] == items;
      r := Ok(snapshots);
    }

    /** `_validate_inventory`. */
    method ValidateInventory() returns (r: Result<Validated>)
      ensures r.Ok? <==> InventoryOk(entries)
      ensures r.Ok? ==> r.value.artifacts == Listed(entries) && r.value.digest == ManifestDigest(Listed(entries))
      ensures r.Ok? ==> r.value.snapshots.Keys == PathsOf(Listed(entries))
      ensures r.Ok? ==> forall p :: p in r.value.snapshots ==> Bound(entries, p, r.value.snapshots[p])
      ensures r.Ok? ==> r.value.file == if ReadsManifest(entries) then Some(SnapshotOf(entries[INVENTORY_NAME])) else None
    {
      if INVENTORY_NAME !in entries {
        if entries.Keys != {LOCK_NAME} {
          return Err(InventoryError("backup root contains artifacts without an inventory"));
        }
        return Ok(Validated([], map[], None, ManifestDigest([])));
      }
      if !ReadsManifest(entries) { return Err(InventoryError("inventory shape is invalid")); }
      var data := entries[INVENTORY_NAME].content.artifacts;
      var checked := ValidateManifestData(data);
      if checked.Err? { return Err(checked.error); }
      var items := checked.value;
      CanonicalProperties(data);
      assert items == Canonical(data) == Listed(entries);
      var snapshots := SnapshotArtifacts(items);
      if snapshots.Err? { return Err(snapshots.error); }
      if entries.Keys != {LOCK_NAME, INVENTORY_NAME} + snapshots.value.Keys {
        return Err(InventoryError("backup root contains unregistered or missing entries"));
      }
      r := Ok(Validated(items, snapshots.value, Some(SnapshotOf(entries[INVENTORY_NAME])), ManifestDigest(items)));
    }

    // ----- The durable steps -----

    method Rename(source: string, target: string)
      requires source in entries
      modifies this
      ensures entries == Apply(old(entries), Move(source, target)) && log == old(log) + [Move(source, target)]
    {
      entries := (entries - {source})[target := entries[source]];
      log := log + [Move(source, target)];
    }

    method Remove(name: string)
      requires name in entries
      modifies this
      ensures entries == Apply(old(entries), Unlink(name)) && log == old(log) + [Unlink(name)]
    {
      entries := entries - {name};
      log := log + [Unlink(name)];
    }

    /** `_create_control_file`: exclusive creation, the writes, the flush, the snapshot. */
    method CreateControl(name: string, partial: Entry, content: Content) returns (s: Snapshot)
      requires name !in entries && partial.Regular?
      modifies this
      ensures entries == Run(old(entries), [Create(name, partial), Fill(name, content)])
      ensures log == old(log) + [Create(name, partial), Fill(name, content)]
      ensures entries == old(entries)[name := partial.(content := content)]
      ensures s == SnapshotOf(partial.(content := content))
    {
      entries := entries[name := partial];
      entries := entries[name := partial.(content := content)];
      log := log + [Create(name, partial), Fill(name, content)];
      s := SnapshotOf(entries[name]);
      ghost var d, a, b := old(entries), Create(name, partial), Fill(name, content);
      assert [a, b][..1] == [a] && [a][..0] == [];
      assert Run(d, [a]) == Apply(Run(d, []), a);
      assert Run(d, [a, b]) == Apply(Run(d, [a]), b);
      assert d[name := partial][name := partial.(content := content)] == d[name := partial.(content := content)];
    }

    /** `_remove_control`. */
    method RemoveControl(name: string, expected: Snapshot) returns (ok: bool)
      modifies this
      ensures ok <==> Bound(old(entries), name, expected)
      ensures ok ==> entries == Apply(old(entries), Unlink(name)) && log == old(log) + [Unlink(name)]
      ensures !ok ==> entries == old(entries) && log == old(log)
    {
      ok := NamedSnapshotIs(name, expected);
      if ok { Remove(name); }
    }
  }
}
