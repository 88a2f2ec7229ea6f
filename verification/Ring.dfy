/** Parity of the joins of a closed ring that satisfy a symmetric relation, and how it
    behaves when the ring is rotated, reversed or cut in two. */
module Ring {

  /** Whether join k of the ring, from element k to the one after it, satisfies `rel`. */
  predicate HitAt<T>(rel: (T, T) -> bool, vs: seq<T>, k: nat)
    requires k < |vs|
  {
    rel(vs[k], if k + 1 == |vs| then vs[0] else vs[k + 1])
  }

  ghost function Hits<T>(rel: (T, T) -> bool, vs: seq<T>): set<nat> {
    set k: nat | k < |vs| && HitAt(rel, vs, k)
  }

  /** Parity along an open chain. */
  predicate ChainOdd<T>(rel: (T, T) -> bool, vs: seq<T>) {
    |vs| >= 2 && (rel(vs[0], vs[1]) != ChainOdd(rel, vs[1..]))
  }

  /** Parity around the closed ring. */
  predicate RingOdd<T>(rel: (T, T) -> bool, vs: seq<T>) {
    vs != [] && ChainOdd(rel, vs + [vs[0]])
  }

  ghost predicate Symmetric<T(!new)>(rel: (T, T) -> bool) {
    forall a, b :: rel(a, b) == rel(b, a)
  }

  function Reversed<T>(vs: seq<T>): (r: seq<T>)
    ensures |r| == |vs|
  {
    if vs == [] then [] else Reversed(vs[1..]) + [vs[0]]
  }

  function Rotated<T>(vs: seq<T>, k: nat): seq<T>
    requires k <= |vs|
  {
    vs[k..] + vs[..k]
  }

  lemma {:induction false} ChainJoin<T>(rel: (T, T) -> bool, p: seq<T>, m: T, q: seq<T>)
    ensures ChainOdd(rel, p + [m] + q) == (ChainOdd(rel, p + [m]) != ChainOdd(rel, [m] + q))
  {
    if p == [] {
      assert p + [m] + q == [m] + q && p + [m] == [m];
    } else {
      assert (p + [m] + q)[1..] == p[1..] + [m] + q && (p + [m])[1..] == p[1..] + [m];
      assert (p + [m] + q)[1] == (p + [m])[1];
      ChainJoin(rel, p[1..], m, q);
    }
  }

  lemma ChainExtend<T>(rel: (T, T) -> bool, vs: seq<T>, v: T)
    requires vs != []
    ensures ChainOdd(rel, vs + [v]) == (ChainOdd(rel, vs) != rel(vs[|vs| - 1], v))
  {
    var p, m := vs[..|vs| - 1], vs[|vs| - 1];
    assert vs == p + [m] && vs + [v] == p + [m] + [v];
    assert ([m] + [v])[1..] == [v];
    ChainJoin(rel, p, m, [v]);
  }

  /** The hits of the chain that starts at element k of the ring and closes it. */
  lemma {:induction false} CountFrom<T>(rel: (T, T) -> bool, vs: seq<T>, k: nat)
    requires k < |vs|
    ensures var s := set i: nat | k <= i < |vs| && HitAt(rel, vs, i);
            ChainOdd(rel, vs[k..] + [vs[0]]) == (|s| % 2 == 1)
    decreases |vs| - k
  {
    var s := set i: nat | k <= i < |vs| && HitAt(rel, vs, i);
    var rest := set i: nat | k + 1 <= i < |vs| && HitAt(rel, vs, i);
    var c := vs[k..] + [vs[0]];
    if k + 1 == |vs| {
      assert c[1..] == [vs[0]];
      assert rest == {};
    } else {
      CountFrom(rel, vs, k + 1);
      assert c[1..] == vs[k + 1..] + [vs[0]] && c[1] == vs[k + 1];
    }
    assert HitAt(rel, vs, k) == rel(c[0], c[1]);
    assert s == rest + if HitAt(rel, vs, k) then {k} else {};
    assert k !in rest;
  }

  lemma RingCounts<T>(rel: (T, T) -> bool, vs: seq<T>)
    ensures RingOdd(rel, vs) == (|Hits(rel, vs)| % 2 == 1)
  {
    if vs == [] {
      assert Hits(rel, vs) == {};
    } else {
      CountFrom(rel, vs, 0);
      assert Hits(rel, vs) == set i: nat | 0 <= i < |vs| && HitAt(rel, vs, i);
      assert vs[0..] == vs;
    }
  }

  lemma {:induction false} ChainReversed<T(!new)>(rel: (T, T) -> bool, vs: seq<T>)
    requires Symmetric(rel)
    ensures ChainOdd(rel, Reversed(vs)) == ChainOdd(rel, vs)
  {
    if |vs| >= 2 {
      ChainReversed(rel, vs[1..]);
      var r := Reversed(vs[1..]);
      assert r == Reversed(vs[1..][1..]) + [vs[1]];
      ChainExtend(rel, r, vs[0]);
    }
  }

  lemma {:induction false} ReversedJoin<T>(p: seq<T>, v: T)
    ensures Reversed(p + [v]) == [v] + Reversed(p)
  {
    if p == [] {
      assert p + [v] == [v] && [v][1..] == [];
    } else {
      ReversedJoin(p[1..], v);
      assert (p + [v])[1..] == p[1..] + [v];
    }
  }

  lemma RotationInvariant<T>(rel: (T, T) -> bool, vs: seq<T>, k: nat)
    requires k <= |vs|
    ensures RingOdd(rel, Rotated(vs, k)) == RingOdd(rel, vs)
  {
    if 0 < k < |vs| {
      var a, b := vs[..k], vs[k..];
      assert vs + [a[0]] == a + [b[0]] + (b[1..] + [a[0]]);
      ChainJoin(rel, a, b[0], b[1..] + [a[0]]);
      assert [b[0]] + (b[1..] + [a[0]]) == b + [a[0]];
      assert (b + a) + [b[0]] == b + [a[0]] + (a[1..] + [b[0]]);
      ChainJoin(rel, b, a[0], a[1..] + [b[0]]);
      assert [a[0]] + (a[1..] + [b[0]]) == a + [b[0]];
    } else {
      assert Rotated(vs, k) == vs;
    }
  }

  lemma ReversalInvariant<T(!new)>(rel: (T, T) -> bool, vs: seq<T>)
    requires Symmetric(rel)
    ensures RingOdd(rel, Reversed(vs)) == RingOdd(rel, vs)
  {
    if vs != [] {
      // The reversed closed ring is the closed ring of the reversed list, rotated by one.
      ChainReversed(rel, vs + [vs[0]]);
      ReversedJoin(vs, vs[0]);
      var s := [vs[0]] + Reversed(vs[1..]);
      assert s + [s[0]] == [vs[0]] + Reversed(vs);
      assert Rotated(s, 1) == Reversed(vs);
      RotationInvariant(rel, s, 1);
    }
  }

  /** Cutting the ring between elements i and j: the whole is odd exactly when one part is and not both. */
  lemma CutInTwo<T(!new)>(rel: (T, T) -> bool, vs: seq<T>, i: nat, j: nat)
    requires Symmetric(rel) && i < j < |vs|
    ensures RingOdd(rel, vs) == (RingOdd(rel, vs[i..j + 1]) != RingOdd(rel, vs[..i + 1] + vs[j..]))
  {
    var p, q := vs[i..j + 1], vs[..i + 1] + vs[j..];
    ChainExtend(rel, p, vs[i]);
    // the whole: to i, from i to j, and home from j
    var home := vs[j + 1..] + [vs[0]];
    assert vs + [vs[0]] == vs[..i] + [vs[i]] + (vs[i + 1..j + 1] + home);
    ChainJoin(rel, vs[..i], vs[i], vs[i + 1..j + 1] + home);
    assert vs[..i] + [vs[i]] == vs[..i + 1];
    assert [vs[i]] + (vs[i + 1..j + 1] + home) == vs[i..j] + [vs[j]] + home;
    ChainJoin(rel, vs[i..j], vs[j], home);
    assert vs[i..j] + [vs[j]] == p;
    // the outer part: to i, over the cut to j, and home
    assert q + [q[0]] == vs[..i + 1] + [vs[j]] + home;
    ChainJoin(rel, vs[..i + 1], vs[j], home);
    ChainExtend(rel, vs[..i + 1], vs[j]);
  }

  // ---- rings whose parity is known --------------------------------------------

  lemma ChainOfTwo<T>(rel: (T, T) -> bool, a: T, b: T)
    ensures ChainOdd(rel, [a, b]) == rel(a, b)
  {
    assert [a, b][1..] == [b];
  }

  lemma {:induction false} ChainNever<T>(rel: (T, T) -> bool, vs: seq<T>)
    requires forall a, b :: a in vs && b in vs ==> !rel(a, b)
    ensures !ChainOdd(rel, vs)
  {
    if |vs| >= 2 {
      assert vs[0] in vs && vs[1] in vs;
      ChainNever(rel, vs[1..]);
    }
  }

  /** When `rel` says that the two ends lie on different sides, an open chain is odd
      exactly when its first and last elements do. */
  lemma {:induction false} ChainOfSides<T>(rel: (T, T) -> bool, side: T -> bool, vs: seq<T>)
    requires vs != []
    requires forall a, b :: a in vs && b in vs ==> rel(a, b) == (side(a) != side(b))
    ensures ChainOdd(rel, vs) == (side(vs[0]) != side(vs[|vs| - 1]))
  {
    if |vs| >= 2 {
      assert vs[0] in vs && vs[1] in vs;
      ChainOfSides(rel, side, vs[1..]);
    }
  }
}
