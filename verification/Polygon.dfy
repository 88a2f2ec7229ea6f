/** The ray-casting zone test, and that it is a geometric test: its verdict does not
    depend on how the vertex list is written. */
module Polygon {
  import opened Vda5050
  import opened Ring

  /** Where the line through `a` and `b` meets the horizontal through y. */
  function Intercept(y: real, a: Vertex, b: Vertex): real
    requires a.y != b.y
  {
    (b.x - a.x) * (y - a.y) / (b.y - a.y) + a.x
  }

  /** Whether the edge from `a` to `b` crosses the ray from (x, y) to the right. */
  predicate Crosses(x: real, y: real, a: Vertex, b: Vertex) {
    (a.y > y) != (b.y > y) && x < Intercept(y, a, b)
  }

  function Ray(x: real, y: real): (Vertex, Vertex) -> bool {
    (a, b) => Crosses(x, y, a, b)
  }

  /** The even-odd rule: the ray crosses an odd number of the polygon's edges. */
  ghost predicate Inside(x: real, y: real, vs: seq<Vertex>) {
    |Hits(Ray(x, y), vs)| % 2 == 1
  }

  /** The test as the source computes it: go round the edges, each taken from its
      later vertex, and flip `inside` at every crossing. */
  method PointInPolygon(x: real, y: real, vertices: seq<Vertex>) returns (inside: bool)
    ensures inside == Inside(x, y, vertices)
  {
    ghost var ray := Ray(x, y);
    var n := |vertices|;
    RingCounts(ray, vertices);
    if n < 3 {
      FewVertices(x, y, vertices);
      return false;
    }
    inside := false;
    var j := n - 1;
    for i := 0 to n
      invariant j == if i == 0 then n - 1 else i - 1
      invariant i == 0 ==> !inside
      invariant i > 0 ==> inside == (ray(vertices[n - 1], vertices[0]) != ChainOdd(ray, vertices[..i]))
    {
      CrossesSymmetric(x, y, vertices[i], vertices[j]);
      if Crosses(x, y, vertices[i], vertices[j]) {
        inside := !inside;
      }
      if i > 0 {
        assert vertices[..i + 1] == vertices[..i] + [vertices[i]];
        ChainExtend(ray, vertices[..i], vertices[i]);
      } else {
        assert vertices[..1] == [vertices[0]];
      }
      j := i;
    }
    assert vertices[..n] == vertices;
    ChainExtend(ray, vertices, vertices[0]);
  }

  // ---- one edge ------------------------------------------------------------

  /** m * n / d lies between 0 and m when n lies between 0 and d. */
  lemma ShareBetween(m: real, n: real, d: real)
    requires (0.0 <= n <= d && 0.0 < d) || (d <= n <= 0.0 && d < 0.0)
    ensures 0.0 <= m ==> 0.0 <= m * n / d <= m
    ensures m <= 0.0 ==> m <= m * n / d <= 0.0
  {
    var t := n / d;
    assert t * d == n;
    assert 0.0 <= t <= 1.0;
    assert m * n == (m * t) * d;
    assert m * n / d == m * t;
    if 0.0 <= m {
      assert m * t <= m * 1.0;
    } else {
      assert (-m) * t <= (-m) * 1.0;
    }
  }

  lemma InterceptBetween(y: real, a: Vertex, b: Vertex)
    requires (a.y > y) != (b.y > y)
    ensures a.x <= b.x ==> a.x <= Intercept(y, a, b) <= b.x
    ensures b.x <= a.x ==> b.x <= Intercept(y, a, b) <= a.x
  {
    var m, n, d := b.x - a.x, y - a.y, b.y - a.y;
    ShareBetween(m, n, d);
    assert Intercept(y, a, b) == m * n / d + a.x;
  }

  /** The intercept with the horizontal through y is the same from either end. */
  lemma InterceptSymmetric(y: real, a: Vertex, b: Vertex)
    requires a.y != b.y
    ensures Intercept(y, a, b) == Intercept(y, b, a)
  {
    var m, d := b.x - a.x, b.y - a.y;
    var t := (y - a.y) / d;
    assert t * d == y - a.y;
    assert m * (y - a.y) == (m * t) * d;
    assert m * (y - a.y) / d == m * t;
    assert y - b.y == (1.0 - t) * (a.y - b.y);
    assert (a.x - b.x) * (y - b.y) == ((a.x - b.x) * (1.0 - t)) * (a.y - b.y);
    assert (a.x - b.x) * (y - b.y) / (a.y - b.y) == (a.x - b.x) * (1.0 - t);
  }

  lemma CrossesSymmetric(x: real, y: real, a: Vertex, b: Vertex)
    ensures Crosses(x, y, a, b) == Crosses(x, y, b, a)
  {
    if a.y != b.y {
      InterceptSymmetric(y, a, b);
    }
  }

  lemma RaySymmetric(x: real, y: real)
    ensures Symmetric(Ray(x, y))
  {
    forall a, b ensures Ray(x, y)(a, b) == Ray(x, y)(b, a) {
      CrossesSymmetric(x, y, a, b);
    }
  }

  /** The guard for fewer than three vertices changes no verdict. */
  lemma FewVertices(x: real, y: real, vs: seq<Vertex>)
    requires |vs| < 3
    ensures !RingOdd(Ray(x, y), vs)
  {
    if |vs| == 1 {
      ChainOfTwo(Ray(x, y), vs[0], vs[0]);
      assert vs + [vs[0]] == [vs[0], vs[0]];
    } else if |vs| == 2 {
      var c := vs + [vs[0]];
      assert c[1..] == [vs[1], vs[0]];
      ChainOfTwo(Ray(x, y), vs[1], vs[0]);
      CrossesSymmetric(x, y, vs[0], vs[1]);
    }
  }

  // ---- the verdict does not depend on how the polygon is written ---------------

  /** Starting the vertex list at any other vertex gives the same verdict. */
  lemma RotationKeepsVerdict(x: real, y: real, vs: seq<Vertex>, k: nat)
    requires k <= |vs|
    ensures Inside(x, y, Rotated(vs, k)) == Inside(x, y, vs)
  {
    RingCounts(Ray(x, y), vs);
    RingCounts(Ray(x, y), Rotated(vs, k));
    RotationInvariant(Ray(x, y), vs, k);
  }

  /** Listing the vertices the other way round gives the same verdict. */
  lemma ReversalKeepsVerdict(x: real, y: real, vs: seq<Vertex>)
    ensures Inside(x, y, Reversed(vs)) == Inside(x, y, vs)
  {
    RingCounts(Ray(x, y), vs);
    RingCounts(Ray(x, y), Reversed(vs));
    RaySymmetric(x, y);
    ReversalInvariant(Ray(x, y), vs);
  }

  /** Cutting a polygon along a chord: a point is inside the whole exactly when it is
      inside one of the two parts and not both. */
  lemma ChordSplitsVerdict(x: real, y: real, vs: seq<Vertex>, i: nat, j: nat)
    requires i < j < |vs|
    ensures Inside(x, y, vs) == (Inside(x, y, vs[i..j + 1]) != Inside(x, y, vs[..i + 1] + vs[j..]))
  {
    RingCounts(Ray(x, y), vs);
    RingCounts(Ray(x, y), vs[i..j + 1]);
    RingCounts(Ray(x, y), vs[..i + 1] + vs[j..]);
    RaySymmetric(x, y);
    CutInTwo(Ray(x, y), vs, i, j);
  }

  // ---- where the verdict is known ------------------------------------------------

  lemma EdgeToTheRight(x: real, y: real, a: Vertex, b: Vertex)
    requires x < a.x && x < b.x
    ensures Crosses(x, y, a, b) == ((a.y > y) != (b.y > y))
  {
    hide Intercept;
    if (a.y > y) != (b.y > y) { InterceptBetween(y, a, b); }
  }

  lemma EdgeToTheLeft(x: real, y: real, a: Vertex, b: Vertex)
    requires a.x < x && b.x < x
    ensures !Crosses(x, y, a, b)
  {
    hide Intercept;
    if (a.y > y) != (b.y > y) { InterceptBetween(y, a, b); }
  }

  /** No point outside the bounding box is inside the polygon. */
  lemma OutsideBoundingBox(x: real, y: real, vs: seq<Vertex>)
    requires (forall v :: v in vs ==> v.x < x) || (forall v :: v in vs ==> x < v.x)
          || (forall v :: v in vs ==> v.y < y) || (forall v :: v in vs ==> y < v.y)
    ensures !Inside(x, y, vs)
  {
    var ray := Ray(x, y);
    RingCounts(ray, vs);
    if vs != [] {
      var c := vs + [vs[0]];
      assert forall v :: v in c ==> v in vs;
      if forall v :: v in vs ==> x < v.x {
        forall a, b | a in c && b in c ensures ray(a, b) == ((a.y > y) != (b.y > y)) {
          EdgeToTheRight(x, y, a, b);
        }
        ChainOfSides(ray, (v: Vertex) => v.y > y, c);
      } else {
        forall a, b | a in c && b in c ensures !ray(a, b) {
          if a.x < x && b.x < x { EdgeToTheLeft(x, y, a, b); }
        }
        ChainNever(ray, c);
      }
    }
  }

  lemma UprightEdge(x: real, y: real, a: Vertex, b: Vertex)
    requires a.x == b.x
    ensures Crosses(x, y, a, b) == ((a.y > y) != (b.y > y) && x < a.x)
  {
    hide Intercept;
    if (a.y > y) != (b.y > y) { InterceptBetween(y, a, b); }
  }

  /** On an axis-aligned rectangle the test is the half-open box test. */
  lemma RectangleIsHalfOpenBox(x: real, y: real, x0: real, y0: real, x1: real, y1: real)
    requires x0 < x1 && y0 < y1
    ensures Inside(x, y, [Vertex(x0, y0), Vertex(x1, y0), Vertex(x1, y1), Vertex(x0, y1)])
        <==> x0 <= x < x1 && y0 <= y < y1
  {
    var a, b, c, d := Vertex(x0, y0), Vertex(x1, y0), Vertex(x1, y1), Vertex(x0, y1);
    RingCounts(Ray(x, y), [a, b, c, d]);
    UprightEdge(x, y, b, c);
    UprightEdge(x, y, d, a);
    assert !Ray(x, y)(a, b) && !Ray(x, y)(c, d);
    FourEdges(Ray(x, y), a, b, c, d);
  }

  lemma FourEdges(rel: (Vertex, Vertex) -> bool, a: Vertex, b: Vertex, c: Vertex, d: Vertex)
    ensures RingOdd(rel, [a, b, c, d]) == (((rel(a, b) != rel(b, c)) != rel(c, d)) != rel(d, a))
  {
    var r := [a, b, c, d] + [a];
    ChainOfTwo(rel, d, a);
    assert [c, d, a][1..] == [d, a];
    assert [b, c, d, a][1..] == [c, d, a];
    assert r == [a, b, c, d, a] && r[1..] == [b, c, d, a];
    assert ChainOdd(rel, [b, c, d, a]) == (rel(b, c) != (rel(c, d) != rel(d, a)));
  }
}
