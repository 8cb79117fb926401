/** Moving files between their own names and quarantine names, one durable step at a time. */
module Relocation {
  import opened Inventory
  import opened BackupDirectory

  /** A file's own name and its quarantine name. */
  datatype Pair = Pair(path: string, hidden: string)

  /** No name occurs twice. */
  ghost predicate Apart(ps: seq<Pair>) {
    forall i, k :: 0 <= i < |ps| && 0 <= k < |ps| ==>
      ps[i].path != ps[k].hidden && (i != k ==> ps[i].path != ps[k].path && ps[i].hidden != ps[k].hidden)
  }

  ghost predicate Touches(ps: seq<Pair>, n: nat, x: string)
    requires n <= |ps|
  {
    exists i :: 0 <= i < n && (x == ps[i].path || x == ps[i].hidden)
  }

  predicate SameAt(d: Directory, e: Directory, x: string) {
    (x in e <==> x in d) && (x in d ==> e[x] == d[x])
  }

  lemma SameMaps(d: Directory, e: Directory)
    requires forall x :: SameAt(d, e, x)
    ensures d == e
  {
    forall x ensures x in d <==> x in e { assert SameAt(d, e, x); }
    assert d.Keys == e.Keys;
    forall x | x in d ensures d[x] == e[x] { assert SameAt(d, e, x); }
  }

  /** `e` differs from `d` at most at the names of the first `n` pairs. */
  ghost predicate SameElsewhere(d: Directory, e: Directory, ps: seq<Pair>, n: nat)
    requires n <= |ps|
  {
    forall x :: !Touches(ps, n, x) ==> SameAt(d, e, x)
  }

  lemma TouchesNext(ps: seq<Pair>, n: nat, x: string)
    requires n < |ps|
    ensures Touches(ps, n + 1, x) <==> Touches(ps, n, x) || x == ps[n].path || x == ps[n].hidden
  {
    if x == ps[n].path || x == ps[n].hidden { assert Touches(ps, n + 1, x); }
  }

  lemma NotTouchedYet(ps: seq<Pair>, n: nat)
    requires Apart(ps) && n < |ps|
    ensures !Touches(ps, n, ps[n].path) && !Touches(ps, n, ps[n].hidden)
  {
  }

  // ----- Quarantine -----

  function Hide(ps: seq<Pair>, n: nat): (s: seq<Step>)
    requires n <= |ps|
    ensures |s| == n
  {
    if n == 0 then [] else Hide(ps, n - 1) + [Move(ps[n - 1].path, ps[n - 1].hidden)]
  }

  ghost predicate HiddenUpTo(d: Directory, e: Directory, ps: seq<Pair>, n: nat)
    requires n <= |ps| && forall i :: 0 <= i < |ps| ==> ps[i].path in d
  {
    && (forall i :: 0 <= i < n ==> ps[i].path !in e && ps[i].hidden in e && e[ps[i].hidden] == d[ps[i].path])
    && SameElsewhere(d, e, ps, n)
  }

  lemma HideStep(d: Directory, e: Directory, ps: seq<Pair>, n: nat)
    requires Apart(ps) && n < |ps| && (forall i :: 0 <= i < |ps| ==> ps[i].path in d) && HiddenUpTo(d, e, ps, n)
    ensures ps[n].path in e && e[ps[n].path] == d[ps[n].path] && SameAt(d, e, ps[n].hidden)
    ensures HiddenUpTo(d, Apply(e, Move(ps[n].path, ps[n].hidden)), ps, n + 1)
  {
    NotTouchedYet(ps, n);
    assert SameAt(d, e, ps[n].path) && SameAt(d, e, ps[n].hidden);
    var f := Apply(e, Move(ps[n].path, ps[n].hidden));
    forall x | !Touches(ps, n + 1, x) ensures SameAt(d, f, x) {
      TouchesNext(ps, n, x);
      assert SameAt(d, e, x);
    }
  }

  /** After `n` quarantine moves exactly the first `n` files stand under their quarantine names. */
  lemma {:induction false} HideImage(d: Directory, ps: seq<Pair>, n: nat)
    requires Apart(ps) && n <= |ps| && forall i :: 0 <= i < |ps| ==> ps[i].path in d
    ensures HiddenUpTo(d, Run(d, Hide(ps, n)), ps, n)
  {
    if n > 0 {
      HideImage(d, ps, n - 1);
      HideStep(d, Run(d, Hide(ps, n - 1)), ps, n - 1);
      RunSnoc(d, Hide(ps, n - 1), Move(ps[n - 1].path, ps[n - 1].hidden));
    }
  }

  /** Between two quarantine moves: the next pair is untouched, and its move is the next step. */
  lemma HideNext(d: Directory, ps: seq<Pair>, i: nat)
    requires Apart(ps) && i < |ps| && forall k :: 0 <= k < |ps| ==> ps[k].path in d
    ensures var e, path, q := Run(d, Hide(ps, i)), ps[i].path, ps[i].hidden;
            && SameElsewhere(d, e, ps, i) && SameAt(d, e, path) && SameAt(d, e, q)
            && Run(d, Hide(ps, i + 1)) == Apply(e, Move(path, q)) && Hide(ps, i + 1) == Hide(ps, i) + [Move(path, q)]
  {
    HideImage(d, ps, i);
    NotTouchedYet(ps, i);
    RunSnoc(d, Hide(ps, i), Move(ps[i].path, ps[i].hidden));
  }

  // ----- Rollback -----

  /** Each file stands under exactly one of its two names. */
  ghost predicate Placed(d: Directory, ps: seq<Pair>) {
    forall i :: 0 <= i < |ps| ==> (ps[i].path in d) != (ps[i].hidden in d)
  }

  function Restore(d: Directory, ps: seq<Pair>, n: nat): seq<Step>
    requires n <= |ps|
  {
    if n == 0 then []
    else Restore(d, ps, n - 1) + (if ps[n - 1].hidden in d then [Move(ps[n - 1].hidden, ps[n - 1].path)] else [])
  }

  function Held(d: Directory, p: Pair): Entry
    requires p.path in d || p.hidden in d
  {
    if p.path in d then d[p.path] else d[p.hidden]
  }

  ghost predicate RestoredUpTo(d: Directory, e: Directory, ps: seq<Pair>, n: nat)
    requires n <= |ps| && Placed(d, ps)
  {
    && (forall i :: 0 <= i < n ==> ps[i].path in e && e[ps[i].path] == Held(d, ps[i]) && ps[i].hidden !in e)
    && SameElsewhere(d, e, ps, n)
  }

  lemma RestoreStep(d: Directory, e: Directory, ps: seq<Pair>, n: nat)
    requires Apart(ps) && n < |ps| && Placed(d, ps) && RestoredUpTo(d, e, ps, n)
    ensures SameAt(d, e, ps[n].path) && SameAt(d, e, ps[n].hidden)
    ensures RestoredUpTo(d, if ps[n].hidden in d then Apply(e, Move(ps[n].hidden, ps[n].path)) else e, ps, n + 1)
  {
    NotTouchedYet(ps, n);
    assert SameAt(d, e, ps[n].path) && SameAt(d, e, ps[n].hidden);
    var f := if ps[n].hidden in d then Apply(e, Move(ps[n].hidden, ps[n].path)) else e;
    forall x | !Touches(ps, n + 1, x) ensures SameAt(d, f, x) {
      TouchesNext(ps, n, x);
      assert SameAt(d, e, x);
    }
  }

  /** After the rollback moves for `n` pairs exactly those files are back under their own names. */
  lemma {:induction false} RestoreImage(d: Directory, ps: seq<Pair>, n: nat)
    requires Apart(ps) && n <= |ps| && Placed(d, ps)
    ensures RestoredUpTo(d, Run(d, Restore(d, ps, n)), ps, n)
  {
    hide RestoredUpTo, SameAt, Apply, Held, Apart, Placed, SameElsewhere;
    if n == 0 {
      NothingRestored(d, ps);
    } else {
      RestoreImage(d, ps, n - 1);
      var s := Restore(d, ps, n - 1);
      RestoreStep(d, Run(d, s), ps, n - 1);
      if ps[n - 1].hidden in d {
        RunSnoc(d, s, Move(ps[n - 1].hidden, ps[n - 1].path));
      } else {
        assert s + [] == s;
      }
    }
  }

  lemma NothingRestored(d: Directory, ps: seq<Pair>)
    requires Placed(d, ps)
    ensures RestoredUpTo(d, d, ps, 0)
  {
  }

  /** Between two rollback moves: the next pair is untouched, and its move is the next step. */
  lemma RestoreNext(d: Directory, ps: seq<Pair>, i: nat)
    requires Apart(ps) && i < |ps| && Placed(d, ps)
    ensures var e, path, q := Run(d, Restore(d, ps, i)), ps[i].path, ps[i].hidden;
            && SameElsewhere(d, e, ps, i) && SameAt(d, e, path) && SameAt(d, e, q)
            && Run(d, Restore(d, ps, i + 1)) == (if q in d then Apply(e, Move(q, path)) else e)
            && Restore(d, ps, i + 1) == if q in d then Restore(d, ps, i) + [Move(q, path)] else Restore(d, ps, i)
  {
    var s := Restore(d, ps, i);
    RestoreImage(d, ps, i);
    RestoreStep(d, Run(d, s), ps, i);
    hide SameElsewhere, SameAt, Apply, Run, Apart, Placed;
    RunSnoc(d, s, Move(ps[i].hidden, ps[i].path));
    assert s + [] == s;
  }

  // ----- Roll forward -----

  function Sweep(d: Directory, ps: seq<Pair>, n: nat): seq<Step>
    requires n <= |ps|
  {
    if n == 0 then []
    else Sweep(d, ps, n - 1) + (if ps[n - 1].hidden in d then [Unlink(ps[n - 1].hidden)] else [])
  }

  ghost predicate SweptUpTo(d: Directory, e: Directory, ps: seq<Pair>, n: nat)
    requires n <= |ps|
  {
    && (forall i :: 0 <= i < n ==> ps[i].hidden !in e && SameAt(d, e, ps[i].path))
    && SameElsewhere(d, e, ps, n)
  }

  lemma SweepStep(d: Directory, e: Directory, ps: seq<Pair>, n: nat)
    requires Apart(ps) && n < |ps| && SweptUpTo(d, e, ps, n)
    ensures SameAt(d, e, ps[n].hidden) && SameAt(d, e, ps[n].path)
    ensures SweptUpTo(d, if ps[n].hidden in d then Apply(e, Unlink(ps[n].hidden)) else e, ps, n + 1)
  {
    NotTouchedYet(ps, n);
    assert SameAt(d, e, ps[n].path) && SameAt(d, e, ps[n].hidden);
    var f := if ps[n].hidden in d then Apply(e, Unlink(ps[n].hidden)) else e;
    forall x | !Touches(ps, n + 1, x) ensures SameAt(d, f, x) {
      TouchesNext(ps, n, x);
      assert SameAt(d, e, x);
    }
  }

  /** After the removals for `n` pairs exactly their quarantined files are gone. */
  lemma {:induction false} SweepImage(d: Directory, ps: seq<Pair>, n: nat)
    requires Apart(ps) && n <= |ps|
    ensures SweptUpTo(d, Run(d, Sweep(d, ps, n)), ps, n)
  {
    hide SweptUpTo, SameAt, Apply, Apart, SameElsewhere;
    if n == 0 {
      NothingSwept(d, ps);
    } else {
      SweepImage(d, ps, n - 1);
      var s := Sweep(d, ps, n - 1);
      SweepStep(d, Run(d, s), ps, n - 1);
      if ps[n - 1].hidden in d { RunSnoc(d, s, Unlink(ps[n - 1].hidden)); } else { assert s + [] == s; }
    }
  }

  lemma NothingSwept(d: Directory, ps: seq<Pair>)
    ensures SweptUpTo(d, d, ps, 0)
  {
  }

  lemma SweepNext(d: Directory, ps: seq<Pair>, i: nat)
    requires Apart(ps) && i < |ps|
    ensures var e, q := Run(d, Sweep(d, ps, i)), ps[i].hidden;
            && SameElsewhere(d, e, ps, i) && SameAt(d, e, q)
            && Run(d, Sweep(d, ps, i + 1)) == (if q in d then Apply(e, Unlink(q)) else e)
            && Sweep(d, ps, i + 1) == if q in d then Sweep(d, ps, i) + [Unlink(q)] else Sweep(d, ps, i)
  {
    var s := Sweep(d, ps, i);
    SweepImage(d, ps, i);
    SweepStep(d, Run(d, s), ps, i);
    hide SameElsewhere, SameAt, Apply, Run, Apart;
    RunSnoc(d, s, Unlink(ps[i].hidden));
    assert s + [] == s;
  }

  // ----- Prefixes of the step lists -----

  lemma PrefixOfAppend(r: seq<Step>, t: seq<Step>, k: nat)
    requires k <= |r|
    ensures (r + t)[..k] == r[..k]
  {
  }

  /** A prefix that reaches past a middle step runs the tail's prefix from where the middle step leaves off. */
  lemma RunPastMiddle(d: Directory, s: seq<Step>, o: seq<Step>, m: Step, z: seq<Step>, k: nat, n: nat)
    requires s == o + ([m] + z) && k <= |z| && n == |o| + 1 + k
    ensures n <= |s| && Run(d, s[..n]) == Run(Run(d, o + [m]), z[..k])
  {
    assert s[..n] == o + [m] + z[..k];
    RunConcat(d, o + [m], z[..k]);
  }

  lemma PrefixPastAppend(r: seq<Step>, t: seq<Step>, k: nat)
    requires |r| <= k <= |r| + |t|
    ensures (r + t)[..k] == r + t[..k - |r|]
  {
  }

  lemma {:induction false} HidePrefix(ps: seq<Pair>, n: nat, k: nat)
    requires k <= n <= |ps|
    ensures Hide(ps, n)[..k] == Hide(ps, k)
  {
    if k < n {
      HidePrefix(ps, n - 1, k);
      assert Hide(ps, n)[..k] == Hide(ps, n - 1)[..k];
    }
  }

  /** Every prefix of a rollback is the rollback of some first pairs. */
  lemma {:induction false} RestorePrefix(d: Directory, ps: seq<Pair>, n: nat, k: nat) returns (m: nat)
    requires n <= |ps| && k <= |Restore(d, ps, n)|
    ensures m <= n && Restore(d, ps, n)[..k] == Restore(d, ps, m)
    ensures k == |Restore(d, ps, n)| ==> m == n
  {
    if k == |Restore(d, ps, n)| {
      m := n;
    } else {
      m := RestorePrefix(d, ps, n - 1, k);
      assert Restore(d, ps, n)[..k] == Restore(d, ps, n - 1)[..k];
    }
  }

  /** Every prefix of a roll forward is the sweep of some first pairs. */
  lemma {:induction false} SweepPrefix(d: Directory, ps: seq<Pair>, n: nat, k: nat) returns (m: nat)
    requires n <= |ps| && k <= |Sweep(d, ps, n)|
    ensures m <= n && Sweep(d, ps, n)[..k] == Sweep(d, ps, m)
    ensures k == |Sweep(d, ps, n)| ==> m == n
  {
    if k == |Sweep(d, ps, n)| {
      m := n;
    } else {
      m := SweepPrefix(d, ps, n - 1, k);
      assert Sweep(d, ps, n)[..k] == Sweep(d, ps, n - 1)[..k];
    }
  }
}
