/** The managed backup root: file names, manifests, file snapshots and the prune journal record. */
module Inventory {
  import opened Numerals
  import opened Basics
  import opened Ordering
  import opened Timestamps
  import opened Moments

  const INVENTORY_NAME := "managed-inventory.json"
  const LOCK_NAME := ".edu-agent-backup.lock"
  const JOURNAL_NAME := ".edu-agent-backup-prune.json"
  const JOURNAL_TEMP_NAME := ".edu-agent-backup-prune.json.tmp"
  const MANIFEST_TEMP_NAME := ".edu-agent-backup-manifest.next"
  const QUARANTINE_PREFIX := ".edu-agent-backup-quarantine."
  const RESERVED_PREFIX := ".edu-agent-backup-"

  datatype Error = InventoryError(reason: string)

  datatype Result<+T> = Ok(value: T) | Err(error: Error)

  // ----- Files -----

  /** A SHA-256 text: the digest of a content, or sixty-four hex digits that are no content's digest. The
      digest is a free constructor, so equal digests mean equal contents. */
  datatype Digest = Sha256(of: Content) | Foreign(text: string)

  /** What a file holds. `layout` tells apart the texts that decode to the same manifest; 0 is the canonical
      encoder's own output. `Raw` is everything that is neither a manifest nor a journal. */
  datatype Content =
    | Manifest(artifacts: seq<Artifact>, layout: nat)
    | Journal(journal: PruneJournal)
    | Raw(bytes: seq<nat>)

  datatype Artifact = Artifact(path: string, createdAt: string, size: int, sha256: Digest,
                               generation: int, wrappedKeyId: string)

  datatype Snapshot = Snapshot(device: int, inode: int, size: int, sha256: Digest)

  datatype Identity = Identity(device: int, inode: int)

  datatype Binding = Binding(path: string, snapshot: Snapshot)

  datatype Quarantine = Quarantine(path: string, name: string)

  datatype PruneJournal = PruneJournal(
    operationId: string, cutoff: string, root: Identity, lock: Identity,
    oldDigest: Digest, newDigest: Digest, paths: seq<string>,
    oldManifest: seq<Artifact>, newManifest: seq<Artifact>,
    oldFile: Snapshot, newFile: Snapshot,
    bindings: seq<Binding>, quarantine: seq<Quarantine>)

  type Inode = n: nat | n > 0 witness 1

  /** A directory entry: a single-link regular file, or anything else (a symlink, a directory, a hard link). */
  datatype Entry = Regular(device: nat, inode: Inode, content: Content) | Irregular

  type Directory = map<string, Entry>

  /** A byte count that depends on the content alone. */
  function Size(c: Content): nat {
    match c
    case Raw(b) => |b|
    case Manifest(artifacts, layout) => 64 + 256 * |artifacts| + layout
    case Journal(j) => 512 + 512 * |j.oldManifest|
  }

  function SnapshotOf(e: Entry): Snapshot
    requires e.Regular?
  {
    Snapshot(e.device, e.inode, Size(e.content), Sha256(e.content))
  }

  /** A snapshot identifies the file and its content. */
  lemma SnapshotIdentifies(a: Entry, b: Entry)
    requires a.Regular? && b.Regular?
    ensures SnapshotOf(a) == SnapshotOf(b) <==> a == b
  {
  }

  // ----- Names -----

  predicate Plain(c: char) {
    c != '/' && c != '\\' && c as int >= 0x20 && c as int != 0x7F
  }

  /** The flat names `_artifact_name` accepts. */
  predicate ArtifactName(s: string) {
    && |s| > 0
    && s !in {INVENTORY_NAME, LOCK_NAME, ".", ".."}
    && !(RESERVED_PREFIX <= s)
    && forall i :: 0 <= i < |s| ==> Plain(s[i])
  }

  predicate HexDigit(c: char) { Digit(c) || 'a' <= c <= 'f' }

  predicate CanonicalUuid(s: string) {
    |s| == 36 && forall i :: 0 <= i < 36 ==> if i in {8, 13, 18, 23} then s[i] == '-' else HexDigit(s[i])
  }

  /** A canonical UUID other than the nil one. */
  predicate OperationId(s: string) {
    CanonicalUuid(s) && exists i :: 0 <= i < 36 && s[i] != '0' && s[i] != '-'
  }

  predicate HexDigest(d: Digest) {
    d.Foreign? ==> |d.text| == 64 && forall i :: 0 <= i < 64 ==> HexDigit(d.text[i])
  }

  /** `{index:08d}`. */
  function PadEight(n: nat): string {
    var d := Decimal(n);
    if |d| < 8 then Zeros(8 - |d|) + d else d
  }

  function QuarantineName(operationId: string, index: nat): string {
    QUARANTINE_PREFIX + operationId + "." + PadEight(index)
  }

  lemma ReadingPadEight(n: nat)
    ensures Reading(0, PadEight(n)) == n
  {
    ReadingDecimal(n);
    ReadingZeros(if |Decimal(n)| < 8 then 8 - |Decimal(n)| else 0, Decimal(n));
  }

  /** Under one operation, different indexes have different quarantine names. */
  lemma QuarantineInjective(operationId: string, i: nat, j: nat)
    ensures QuarantineName(operationId, i) == QuarantineName(operationId, j) ==> i == j
  {
    var a, b := QuarantineName(operationId, i), QuarantineName(operationId, j);
    var lead := QUARANTINE_PREFIX + operationId + ".";
    assert a[|lead|..] == PadEight(i) && b[|lead|..] == PadEight(j);
    ReadingPadEight(i);
    ReadingPadEight(j);
  }

  function ControlNames(): set<string> {
    {INVENTORY_NAME, LOCK_NAME, JOURNAL_NAME, JOURNAL_TEMP_NAME, MANIFEST_TEMP_NAME}
  }

  lemma ControlNamesDiffer()
    ensures INVENTORY_NAME != LOCK_NAME && INVENTORY_NAME != JOURNAL_NAME && INVENTORY_NAME != JOURNAL_TEMP_NAME
    ensures INVENTORY_NAME != MANIFEST_TEMP_NAME && LOCK_NAME != JOURNAL_NAME && LOCK_NAME != JOURNAL_TEMP_NAME
    ensures LOCK_NAME != MANIFEST_TEMP_NAME && JOURNAL_NAME != JOURNAL_TEMP_NAME
    ensures JOURNAL_NAME != MANIFEST_TEMP_NAME && JOURNAL_TEMP_NAME != MANIFEST_TEMP_NAME
  {
    assert JOURNAL_NAME[18] == 'p' && JOURNAL_TEMP_NAME[18] == 'p' && MANIFEST_TEMP_NAME[18] == 'm';
    assert LOCK_NAME[17] == '.' && JOURNAL_NAME[17] == '-' && MANIFEST_TEMP_NAME[17] == '-' && JOURNAL_TEMP_NAME[17] == '-';
    assert INVENTORY_NAME[0] == 'm' && LOCK_NAME[0] == '.' && JOURNAL_NAME[0] == '.' && MANIFEST_TEMP_NAME[0] == '.';
    assert JOURNAL_TEMP_NAME[0] == '.' && |JOURNAL_TEMP_NAME| > |JOURNAL_NAME|;
  }

  /** Control names, artifact names and quarantine names never meet. */
  lemma NamesDisjoint(path: string, operationId: string, index: nat)
    requires ArtifactName(path)
    ensures path !in ControlNames()
    ensures QuarantineName(operationId, index) !in ControlNames()
    ensures path != QuarantineName(operationId, index)
  {
    var q := QuarantineName(operationId, index);
    assert q[..|QUARANTINE_PREFIX|] == QUARANTINE_PREFIX;
    assert q[18] == QUARANTINE_PREFIX[18] == 'q' && q[0] == QUARANTINE_PREFIX[0] == '.';
    assert q[17] == QUARANTINE_PREFIX[17] == '-';
    assert RESERVED_PREFIX <= QUARANTINE_PREFIX;
    assert RESERVED_PREFIX <= q by { assert q[..|RESERVED_PREFIX|] == QUARANTINE_PREFIX[..|RESERVED_PREFIX|]; }
    assert RESERVED_PREFIX <= JOURNAL_NAME && RESERVED_PREFIX <= JOURNAL_TEMP_NAME && RESERVED_PREFIX <= MANIFEST_TEMP_NAME;
    assert JOURNAL_NAME[18] == 'p' && JOURNAL_TEMP_NAME[18] == 'p' && MANIFEST_TEMP_NAME[18] == 'm';
    assert LOCK_NAME[17] == '.' && INVENTORY_NAME[0] == 'm';
  }

  // ----- Manifests -----

  predicate ValidArtifact(a: Artifact) {
    && ArtifactName(a.path) && CanonicalUuid(a.wrappedKeyId)
    && a.size >= 0 && a.generation >= 1
    && HexDigest(a.sha256) && UtcText(a.createdAt)
  }

  predicate DistinctPaths(s: seq<Artifact>) {
    forall i, j :: 0 <= i < j < |s| ==> s[i].path != s[j].path
  }

  /** What `_validate_manifest_data` accepts. */
  predicate ValidManifest(s: seq<Artifact>) {
    (forall i :: 0 <= i < |s| ==> ValidArtifact(s[i])) && DistinctPaths(s)
  }

  /** An identifier of one repeated digit. */
  function SomeUuid(): string { seq(36, i requires 0 <= i < 36 => if i in {8, 13, 18, 23} then '-' else '1') }

  /** There are valid artifacts for every content and every calendar time. */
  lemma ArtifactsExist(y: nat, m: nat, d: nat, h: nat, minute: nat, s: nat, content: Content)
    requires Calendar(y, m, d) && h <= 23 && minute <= 59 && s <= 59
    ensures ValidArtifact(Artifact("a", Stamp(y, m, d, h, minute, s), Size(content), Sha256(content), 1, SomeUuid())) && OperationId(SomeUuid())
  {
    hide UtcText;
    StampIsUtc(y, m, d, h, minute, s);
    assert SomeUuid()[0] == '1';
  }

  function WholeKey(a: Artifact): string { if UtcText(a.createdAt) then a.createdAt[..19] else "" }

  function NanosKey(a: Artifact): string { if UtcText(a.createdAt) then Nanos(a.createdAt) else "" }

  /** The manifest order: sort key of the creation time, then path. */
  predicate Before(a: Artifact, b: Artifact) {
    || Less(WholeKey(a), WholeKey(b))
    || (WholeKey(a) == WholeKey(b)
        && (Less(NanosKey(a), NanosKey(b)) || (NanosKey(a) == NanosKey(b) && Less(a.path, b.path))))
  }

  /** The order in which `_manifest_document` writes artifacts. */
  function Canonical(s: seq<Artifact>): (r: seq<Artifact>)
    ensures multiset(r) == multiset(s) && |r| == |s|
  {
    Sorted(s, Before)
  }

  function ManifestPayload(s: seq<Artifact>): Content { Manifest(Canonical(s), 0) }

  function ManifestDigest(s: seq<Artifact>): Digest { Sha256(ManifestPayload(s)) }

  function PathsOf(s: seq<Artifact>): set<string> { set i | 0 <= i < |s| :: s[i].path }

  lemma BeforeIsStrictOrder()
    ensures StrictOrder(Before)
  {
    forall a: Artifact ensures !Before(a, a) {
      LessIrreflexive(WholeKey(a));
      LessIrreflexive(NanosKey(a));
      LessIrreflexive(a.path);
    }
    forall a: Artifact, b: Artifact, c: Artifact | Before(a, b) && Before(b, c) ensures Before(a, c) {
      if Less(WholeKey(a), WholeKey(b)) && Less(WholeKey(b), WholeKey(c)) {
        LessTransitive(WholeKey(a), WholeKey(b), WholeKey(c));
      } else if WholeKey(a) == WholeKey(b) == WholeKey(c) {
        if Less(NanosKey(a), NanosKey(b)) && Less(NanosKey(b), NanosKey(c)) {
          LessTransitive(NanosKey(a), NanosKey(b), NanosKey(c));
        } else if NanosKey(a) == NanosKey(b) == NanosKey(c) {
          LessTransitive(a.path, b.path, c.path);
        }
      }
    }
  }

  lemma BeforeTotalOn(s: seq<Artifact>)
    requires DistinctPaths(s)
    ensures TotalOn(s, Before)
  {
    forall i, j | 0 <= i < |s| && 0 <= j < |s| && i != j ensures Before(s[i], s[j]) || Before(s[j], s[i]) {
      LessTotal(WholeKey(s[i]), WholeKey(s[j]));
      LessTotal(NanosKey(s[i]), NanosKey(s[j]));
      LessTotal(s[i].path, s[j].path);
    }
  }

  /** The canonical form of a valid manifest is a valid, strictly ordered permutation of it, and its own
      canonical form. */
  lemma CanonicalProperties(s: seq<Artifact>)
    requires ValidManifest(s)
    ensures ValidManifest(Canonical(s)) && StrictlySorted(Canonical(s), Before)
    ensures forall a :: a in Canonical(s) <==> a in s
    ensures PathsOf(Canonical(s)) == PathsOf(s)
    ensures Canonical(Canonical(s)) == Canonical(s)
  {
    hide ValidArtifact, Sorted, WholeKey, NanosKey, Less;
    var c := Canonical(s);
    BeforeIsStrictOrder();
    BeforeTotalOn(s);
    SortedIsSorted(s, Before);
    SortedMembers(s, Before);
    forall i | 0 <= i < |c| ensures ValidArtifact(c[i]) {
      assert c[i] in s;
    }
    forall i, j | 0 <= i < j < |c| ensures c[i].path != c[j].path {
      assert c[i] in s && c[j] in s;
      var m :| 0 <= m < |s| && s[m] == c[i];
      var n :| 0 <= n < |s| && s[n] == c[j];
      assert Before(c[i], c[j]);
      assert m != n;
    }
    forall p ensures p in PathsOf(c) <==> p in PathsOf(s) {
      if p in PathsOf(c) {
        var i :| 0 <= i < |c| && c[i].path == p;
        assert c[i] in s;
      }
      if p in PathsOf(s) {
        var i :| 0 <= i < |s| && s[i].path == p;
        assert s[i] in c;
      }
    }
    SortedIdempotent(c, Before);
  }

  /** `_validate_manifest_data`: one pass over the items with the names seen so far, then the sort. */
  method ValidateManifestData(items: seq<Artifact>) returns (r: Result<seq<Artifact>>)
    ensures r.Ok? <==> ValidManifest(items)
    ensures r.Ok? ==> r.value == Canonical(items)
  {
    hide UtcText, CanonicalUuid, HexDigest, ArtifactName, Sorted;
    var seen: set<string> := {};
    for k := 0 to |items|
      invariant ValidManifest(items[..k])
      invariant seen == PathsOf(items[..k])
    {
      var item := items[k];
      if !ArtifactName(item.path) || item.path in seen {
        assert item.path in seen ==> exists i :: 0 <= i < k && items[i].path == item.path;
        return Err(InventoryError("inventory artifact shape is invalid"));
      }
      if !ValidArtifact(item) {
        return Err(InventoryError("inventory artifact metadata is invalid"));
      }
      seen := seen + {item.path};
      assert items[..k + 1] == items[..k] + [item];
    }
    assert items[..|items|] == items;
    r := Ok(Canonical(items));
  }

  // ----- The cutoff -----

  predicate Due(a: Artifact, cutoff: string)
    requires UtcText(cutoff)
  {
    UtcText(a.createdAt) && Instant(a.createdAt) <= Instant(cutoff)
  }

  function DuePaths(s: seq<Artifact>, cutoff: string): seq<string>
    requires UtcText(cutoff)
  {
    if |s| == 0 then []
    else (if Due(s[0], cutoff) then [s[0].path] else []) + DuePaths(s[1..], cutoff)
  }

  /** The sorted paths a prune with this cutoff must name. */
  function EligiblePaths(s: seq<Artifact>, cutoff: string): seq<string>
    requires UtcText(cutoff)
  {
    Sorted(DuePaths(s, cutoff), Less)
  }

  /** The artifacts whose path is not in `removed`, in their order. */
  function Retained(s: seq<Artifact>, removed: set<string>): seq<Artifact> {
    if |s| == 0 then []
    else (if s[0].path in removed then [] else [s[0]]) + Retained(s[1..], removed)
  }

  lemma {:induction false} DuePathsMembers(s: seq<Artifact>, cutoff: string)
    requires UtcText(cutoff)
    ensures forall p :: p in DuePaths(s, cutoff) <==> exists i :: 0 <= i < |s| && s[i].path == p && Due(s[i], cutoff)
  {
    hide UtcText, Instant;
    if |s| > 0 {
      DuePathsMembers(s[1..], cutoff);
      forall p ensures p in DuePaths(s, cutoff) <==> exists i :: 0 <= i < |s| && s[i].path == p && Due(s[i], cutoff) {
        if p in DuePaths(s[1..], cutoff) {
          var i :| 0 <= i < |s[1..]| && s[1..][i].path == p && Due(s[1..][i], cutoff);
          assert s[i + 1].path == p;
        }
        if exists i :: 0 <= i < |s| && s[i].path == p && Due(s[i], cutoff) {
          var i :| 0 <= i < |s| && s[i].path == p && Due(s[i], cutoff);
          if i > 0 { assert s[1..][i - 1].path == p && Due(s[1..][i - 1], cutoff); }
        }
      }
    }
  }

  lemma {:induction false} DuePathsDistinct(s: seq<Artifact>, cutoff: string)
    requires UtcText(cutoff) && DistinctPaths(s)
    ensures NoRepeats(DuePaths(s, cutoff))
  {
    hide UtcText, Instant;
    if |s| > 0 {
      var d, t := DuePaths(s, cutoff), DuePaths(s[1..], cutoff);
      DuePathsDistinct(s[1..], cutoff);
      DuePathsMembers(s[1..], cutoff);
      if Due(s[0], cutoff) {
        assert s[0].path !in t;
        assert d == [s[0].path] + t;
        forall i, j | 0 <= i < j < |d| ensures d[i] != d[j] {
          assert d[j] == t[j - 1] && t[j - 1] in t;
          assert i == 0 || d[i] == t[i - 1];
        }
      } else {
        assert d == t;
      }
    }
  }

  /** The eligible paths are strictly sorted artifact names of the manifest, exactly those due. */
  lemma EligibleProperties(s: seq<Artifact>, cutoff: string)
    requires UtcText(cutoff) && ValidManifest(s)
    ensures StrictlySorted(EligiblePaths(s, cutoff), Less)
    ensures forall p :: p in EligiblePaths(s, cutoff) <==> exists i :: 0 <= i < |s| && s[i].path == p && Due(s[i], cutoff)
    ensures forall p :: p in EligiblePaths(s, cutoff) ==> ArtifactName(p) && p in PathsOf(s)
  {
    var d := DuePaths(s, cutoff);
    DuePathsMembers(s, cutoff);
    DuePathsDistinct(s, cutoff);
    LessIsStrictOrder();
    LessTotalOn(d);
    SortedIsSorted(d, Less);
    SortedMembers(d, Less);
  }

  lemma {:induction false} RetainedMembers(s: seq<Artifact>, removed: set<string>)
    ensures forall a :: a in Retained(s, removed) <==> a in s && a.path !in removed
  {
    if |s| > 0 {
      RetainedMembers(s[1..], removed);
      assert s == [s[0]] + s[1..];
    }
  }

  lemma {:induction false} RetainedSorted(s: seq<Artifact>, removed: set<string>)
    requires StrictlySorted(s, Before)
    ensures StrictlySorted(Retained(s, removed), Before)
  {
    if |s| > 0 {
      var t := Retained(s[1..], removed);
      RetainedSorted(s[1..], removed);
      RetainedMembers(s[1..], removed);
      forall y | y in t ensures Before(s[0], y) {
        var k :| 0 <= k < |s[1..]| && s[1..][k] == y;
        assert s[k + 1] == y;
      }
      PrependSorted(s[0], t, Before);
      assert [] + t == t;
    }
  }

  lemma {:induction false} RetainedDistinct(s: seq<Artifact>, removed: set<string>)
    requires DistinctPaths(s)
    ensures DistinctPaths(Retained(s, removed))
  {
    if |s| > 0 {
      var r, t := Retained(s, removed), Retained(s[1..], removed);
      RetainedDistinct(s[1..], removed);
      RetainedMembers(s[1..], removed);
      if s[0].path !in removed {
        forall i, j | 0 <= i < j < |r| ensures r[i].path != r[j].path {
          assert r[j] == t[j - 1] && t[j - 1] in t && t[j - 1] in s[1..];
          if i == 0 {
            var k :| 0 <= k < |s[1..]| && s[1..][k] == r[j];
            assert s[k + 1] == r[j];
          } else {
            assert r[i] == t[i - 1];
          }
        }
      }
    }
  }

  /** What is retained from a canonical manifest is again a valid canonical manifest. */
  lemma RetainedProperties(s: seq<Artifact>, removed: set<string>)
    requires ValidManifest(s) && Canonical(s) == s
    ensures var r := Retained(s, removed);
            ValidManifest(r) && Canonical(r) == r && PathsOf(r) == PathsOf(s) - removed
  {
    hide ValidArtifact, Before;
    CanonicalProperties(s);
    var r := Retained(s, removed);
    RetainedMembers(s, removed);
    RetainedSorted(s, removed);
    RetainedDistinct(s, removed);
    forall i | 0 <= i < |r| ensures ValidArtifact(r[i]) { assert r[i] in r && r[i] in s; }
    BeforeIsStrictOrder();
    SortedIdempotent(r, Before);
    forall p ensures p in PathsOf(r) <==> p in PathsOf(s) && p !in removed {
      if p in PathsOf(r) {
        var i :| 0 <= i < |r| && r[i].path == p;
        assert r[i] in r && r[i] in s;
      }
      if p in PathsOf(s) && p !in removed {
        var i :| 0 <= i < |s| && s[i].path == p;
        assert s[i] in s && s[i] in r;
      }
    }
  }

  lemma {:induction false} RetainedAll(s: seq<Artifact>, removed: set<string>)
    requires forall i :: 0 <= i < |s| ==> s[i].path !in removed
    ensures Retained(s, removed) == s
  {
    if |s| > 0 {
      RetainedAll(s[1..], removed);
      assert s == [s[0]] + s[1..];
    }
  }

  /** A prune removes a prefix of the canonical manifest order: the retained manifest is the rest of it. */
  lemma {:induction false} PruneTakesPrefix(s: seq<Artifact>, cutoff: string, removed: set<string>) returns (k: nat)
    requires ValidManifest(s) && StrictlySorted(s, Before) && UtcText(cutoff)
    requires forall i :: 0 <= i < |s| ==> (s[i].path in removed <==> Due(s[i], cutoff))
    ensures k <= |s| && Retained(s, removed) == s[k..]
    ensures forall i :: 0 <= i < |s| ==> (Due(s[i], cutoff) <==> i < k)
  {
    hide UtcText, Instant, CanonicalUuid, HexDigest, ArtifactName, Before;
    if |s| == 0 {
      k := 0;
    } else if Due(s[0], cutoff) {
      var t := s[1..];
      assert ValidManifest(t) && StrictlySorted(t, Before);
      assert forall i :: 0 <= i < |t| ==> t[i] == s[i + 1];
      var m := PruneTakesPrefix(t, cutoff, removed);
      k := m + 1;
      assert t[m..] == s[k..];
      forall i | 0 <= i < |s| ensures Due(s[i], cutoff) <==> i < k {
        if i > 0 { assert s[i] == t[i - 1]; }
      }
    } else {
      k := 0;
      forall i | 0 < i < |s| ensures !Due(s[i], cutoff) {
        LaterIsLater(s[0], s[i]);
      }
      RetainedAll(s, removed);
    }
  }

  /** Exactly which artifacts are due: those that are not later than the cutoff, and of the later ones those that
      agree with it down to the microsecond. */
  lemma DueExactly(a: Artifact, cutoff: string)
    requires UtcText(a.createdAt) && UtcText(cutoff)
    ensures Due(a, cutoff) <==> !KeyLess(cutoff, a.createdAt) || SameMicrosecond(cutoff, a.createdAt)
    ensures Nanos(a.createdAt)[6..] == Zeros(3) ==> (Due(a, cutoff) <==> !KeyLess(cutoff, a.createdAt))
  {
    hide UtcText, KeyLess, SameMicrosecond, Instant, Nanos;
    CountsExactly(cutoff, a.createdAt);
    if Nanos(a.createdAt)[6..] == Zeros(3) { WholeMicrosecondsCountExactly(cutoff, a.createdAt); }
  }

  /** What is due, in moments: what was created, to the whole microsecond, no later than the cutoff. */
  lemma DueIsMoment(a: Artifact, cutoff: string)
    requires UtcText(a.createdAt) && UtcText(cutoff)
    ensures Due(a, cutoff) <==> Moment(a.createdAt) / 1000 <= Moment(cutoff) / 1000
  {
    hide UtcText, Instant, Moment;
    InstantIsMoment(a.createdAt);
    InstantIsMoment(cutoff);
  }

  /** The manifest order is chronological, and by path where two moments are the same. */
  lemma ManifestOrderIsChronological(a: Artifact, b: Artifact)
    requires UtcText(a.createdAt) && UtcText(b.createdAt)
    ensures Before(a, b) <==> Moment(a.createdAt) < Moment(b.createdAt) || (Moment(a.createdAt) == Moment(b.createdAt) && Less(a.path, b.path))
  {
    hide UtcText, Nanos, Moment;
    KeyOrderIsMomentOrder(a.createdAt, b.createdAt);
  }

  lemma LaterIsLater(a: Artifact, b: Artifact)
    requires UtcText(a.createdAt) && UtcText(b.createdAt) && Before(a, b)
    ensures Instant(a.createdAt) <= Instant(b.createdAt)
  {
    KeyOrderIsInstantOrder(a.createdAt, b.createdAt);
  }
}
