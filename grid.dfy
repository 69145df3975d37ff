/**
 * The uniform-grid link query of `_linkParticles`: particle indices are
 * bucketed into square cells whose side is the link distance (at least 1),
 * and every particle is compared only with the later-indexed particles of
 * the 3x3 block of cells around its own. The query reports exactly the pairs
 * a brute-force all-pairs scan reports, each pair once.
 *
 * `Math.hypot` is a parameter `hypot`; all the proof needs of it is that a
 * Euclidean length is at least the absolute value of either coordinate.
 */
module LinkGrid {
  import opened JsMath

  datatype Point = Point(x: real, y: real)

  /** A link between particles `a < b`, with the stroke alpha. */
  datatype Link = Link(a: nat, b: nat, alpha: real)

  /** Cell side, and the number of columns and rows of the grid. */
  datatype Grid = Grid(cell: real, cols: nat, rows: nat)

  ghost predicate Dominates(hypot: (real, real) -> real)
  {
    forall dx, dy :: Abs(dx) <= hypot(dx, dy) && Abs(dy) <= hypot(dx, dy)
  }

  function Dist(p: Point, q: Point, hypot: (real, real) -> real): real
  {
    hypot(p.x - q.x, p.y - q.y)
  }

  /** The source's test `d <= distMax` for the pair `(i, j)`. */
  predicate Near(pts: seq<Point>, i: nat, j: nat, distMax: real, hypot: (real, real) -> real)
    requires i < |pts| && j < |pts|
  {
    Dist(pts[i], pts[j], hypot) <= distMax
  }

  /** The stroke alpha `min(1, opacity * (1 - d / distMax))` of a link at distance `d`. */
  function Alpha(opacity: real, d: real, distMax: real): (r: real)
    ensures 0.0 <= opacity && 0.0 <= d <= distMax && distMax != 0.0 ==> 0.0 <= r <= 1.0 && r <= opacity
  {
    if distMax == 0.0 then 0.0
    else
      var faded := opacity * (1.0 - d / distMax);
      if 0.0 <= opacity && 0.0 <= d <= distMax then
        FadeBounds(opacity, d, distMax);
        Min(1.0, faded)
      else Min(1.0, faded)
  }

  /** Fading by the share of the link distance used keeps the opacity between 0 and its full value. */
  lemma FadeBounds(opacity: real, d: real, distMax: real)
    requires 0.0 <= opacity && 0.0 <= d <= distMax && distMax != 0.0
    ensures 0.0 <= opacity * (1.0 - d / distMax) <= opacity
  {
    var q := d / distMax;
    DivMono(0.0, d, distMax);
    DivMono(d, distMax, distMax);
    assert 0.0 <= q <= 1.0;
    MulNonNeg(opacity, 1.0 - q);
    MulNonNeg(opacity, q);
    assert opacity - opacity * (1.0 - q) == opacity * q;
  }

  ghost predicate WellFormed(g: Grid)
  {
    g.cell > 0.0 && g.cols >= 1 && g.rows >= 1
  }

  /** The grid of `_linkParticles` for a canvas of `width` by `height`. */
  function GridFor(distMax: real, width: real, height: real): (g: Grid)
    ensures WellFormed(g)
    ensures g.cell >= 1.0 && g.cell >= distMax
    ensures width <= g.cols as real * g.cell && height <= g.rows as real * g.cell
  {
    var cell := Max(1.0, distMax);
    var cols := IMax(1, Ceil(width / cell));
    var rows := IMax(1, Ceil(height / cell));
    CoverLemma(width, cell, cols);
    CoverLemma(height, cell, rows);
    Grid(cell, cols, rows)
  }

  lemma CoverLemma(extent: real, cell: real, n: int)
    requires cell > 0.0 && extent / cell <= n as real
    ensures extent <= n as real * cell
  {
    assert extent == (extent / cell) * cell;
  }

  /** `min(n - 1, max(0, floor(v / cell)))`: the clamped cell coordinate of `v`. */
  function Cell(v: real, cell: real, n: nat): (c: nat)
    requires cell > 0.0 && n >= 1
    ensures c < n
  {
    IMin(n - 1, IMax(0, Floor(v / cell)))
  }

  function CellX(g: Grid, p: Point): (c: nat)
    requires WellFormed(g)
    ensures c < g.cols
  {
    Cell(p.x, g.cell, g.cols)
  }

  function CellY(g: Grid, p: Point): (c: nat)
    requires WellFormed(g)
    ensures c < g.rows
  {
    Cell(p.y, g.cell, g.rows)
  }

  /** The bucket `cy * cols + cx` a point goes into. */
  function CellIndex(g: Grid, p: Point): (c: nat)
    requires WellFormed(g)
    ensures c < g.cols * g.rows
    ensures c == FlatIndex(g, CellX(g, p), CellY(g, p))
  {
    FlatIndex(g, CellX(g, p), CellY(g, p))
  }

  function FlatIndex(g: Grid, cx: nat, cy: nat): (c: nat)
    requires cx < g.cols && cy < g.rows
    ensures c < g.cols * g.rows
  {
    assert cy * g.cols + cx < (cy + 1) * g.cols <= g.rows * g.cols;
    cy * g.cols + cx
  }

  /** Distinct cells have distinct buckets. */
  lemma FlatIndexInjective(g: Grid, cx: nat, cy: nat, dx: nat, dy: nat)
    requires cx < g.cols && cy < g.rows && dx < g.cols && dy < g.rows
    requires FlatIndex(g, cx, cy) == FlatIndex(g, dx, dy)
    ensures cx == dx && cy == dy
  {
    MulMono(cy + 1, dy, g.cols);
    MulMono(dy + 1, cy, g.cols);
  }

  lemma MulMono(a: int, b: int, c: nat)
    ensures a <= b ==> a * c <= b * c
  {
    if a <= b {
      assert b * c - a * c == (b - a) * c;
    }
  }

  /** Two values at most one cell apart have floors at most one apart. */
  lemma FloorStep(u: real, v: real, cell: real)
    requires cell > 0.0 && u <= v <= u + cell
    ensures Floor(u / cell) <= Floor(v / cell) <= Floor(u / cell) + 1
  {
    DivMono(u, v, cell);
    DivMono(v, u + cell, cell);
    assert (u + cell) / cell == u / cell + cell / cell;
    assert cell / cell == 1.0;
    var fu, fv := Floor(u / cell), Floor(v / cell);
    assert fv as real < fu as real + 2.0;
    assert fu as real < fv as real + 1.0;
  }

  /** The neighbourhood property: clamping never separates close points by more than one cell. */
  lemma CellStep(u: real, v: real, cell: real, n: nat)
    requires cell > 0.0 && n >= 1 && Abs(u - v) <= cell
    ensures -1 <= Cell(u, cell, n) - Cell(v, cell, n) <= 1
  {
    if u <= v {
      FloorStep(u, v, cell);
    } else {
      FloorStep(v, u, cell);
    }
  }

  predicate Increasing(s: seq<nat>)
  {
    forall k, l :: 0 <= k < l < |s| ==> s[k] < s[l]
  }

  /** The indices among the first `n` points whose bucket is `c`, in index order. */
  function Bucket(g: Grid, pts: seq<Point>, n: nat, c: nat): (b: seq<nat>)
    requires WellFormed(g) && n <= |pts|
  {
    if n == 0 then []
    else Bucket(g, pts, n - 1, c) + (if CellIndex(g, pts[n - 1]) == c then [n - 1] else [])
  }

  /** A bucket holds exactly the indices below `n` whose bucket is `c`. */
  lemma {:induction false} BucketMembers(g: Grid, pts: seq<Point>, n: nat, c: nat)
    requires WellFormed(g) && n <= |pts|
    ensures forall j: nat :: j in Bucket(g, pts, n, c) <==> j < n && CellIndex(g, pts[j]) == c
  {
    if n > 0 {
      BucketMembers(g, pts, n - 1, c);
      var prev := Bucket(g, pts, n - 1, c);
      var last: seq<nat> := if CellIndex(g, pts[n - 1]) == c then [n - 1] else [];
      assert Bucket(g, pts, n, c) == prev + last;
      forall j: nat
        ensures j in prev + last <==> j < n && CellIndex(g, pts[j]) == c
      {
        assert j in prev + last <==> j in prev || j in last;
      }
    }
  }

  /** A bucket lists its indices in increasing order. */
  lemma {:induction false} BucketIncreasing(g: Grid, pts: seq<Point>, n: nat, c: nat)
    requires WellFormed(g) && n <= |pts|
    ensures Increasing(Bucket(g, pts, n, c))
  {
    if n > 0 {
      BucketIncreasing(g, pts, n - 1, c);
      BucketMembers(g, pts, n - 1, c);
      var prev := Bucket(g, pts, n - 1, c);
      if CellIndex(g, pts[n - 1]) == c {
        var b := prev + [n - 1];
        assert Bucket(g, pts, n, c) == b;
        forall k, l | 0 <= k < l < |b| ensures b[k] < b[l] {
          if l == |prev| {
            assert b[k] == prev[k] && prev[k] in prev;
          } else {
            assert b[k] == prev[k] && b[l] == prev[l];
          }
        }
      } else {
        assert Bucket(g, pts, n, c) == prev;
      }
    }
  }

  /** A full bucket is what `ScanBucket` needs: indices of particles, in increasing order. */
  lemma BucketScannable(g: Grid, pts: seq<Point>, c: nat, bucket: seq<nat>)
    requires WellFormed(g) && bucket == Bucket(g, pts, |pts|, c)
    ensures forall k :: 0 <= k < |bucket| ==> bucket[k] < |pts|
    ensures forall j :: j in bucket ==> j < |pts|
    ensures Increasing(bucket)
  {
    BucketMembers(g, pts, |pts|, c);
    BucketIncreasing(g, pts, |pts|, c);
    assert forall k :: 0 <= k < |bucket| ==> bucket[k] in bucket;
  }

  /** `new Array(cols * rows)` with every bucket set to `[]`. */
  method EmptyBuckets(n: nat) returns (grid: array<seq<nat>>)
    ensures fresh(grid) && grid.Length == n
    ensures forall e :: 0 <= e < n ==> grid[e] == []
  {
    grid := new seq<nat>[n];
    var c := 0;
    while c < n
      invariant 0 <= c <= n
      invariant forall e :: 0 <= e < c ==> grid[e] == []
    {
      grid[c] := [];
      c := c + 1;
    }
  }

  /** The buckets of the first `n` points, cell by cell. */
  ghost predicate BucketsOf(g: Grid, pts: seq<Point>, n: nat, buckets: seq<seq<nat>>)
    requires WellFormed(g) && n <= |pts|
  {
    |buckets| == g.cols * g.rows &&
    forall e :: 0 <= e < |buckets| ==> buckets[e] == Bucket(g, pts, n, e)
  }

  /** Appending index `i` to its bucket turns the buckets of the first `i` points into those of the first `i + 1`. */
  lemma BucketStep(g: Grid, pts: seq<Point>, i: nat, buckets: seq<seq<nat>>)
    requires WellFormed(g) && i < |pts| && BucketsOf(g, pts, i, buckets)
    ensures BucketsOf(g, pts, i + 1,
                      buckets[CellIndex(g, pts[i]) := buckets[CellIndex(g, pts[i])] + [i]])
  {
  }

  /** The grid-building loop of `_linkParticles`. */
  method BuildGrid(g: Grid, pts: seq<Point>) returns (grid: array<seq<nat>>)
    requires WellFormed(g)
    ensures fresh(grid)
    ensures BucketsOf(g, pts, |pts|, grid[..])
  {
    grid := EmptyBuckets(g.cols * g.rows);
    assert BucketsOf(g, pts, 0, grid[..]);
    var i := 0;
    while i < |pts|
      invariant 0 <= i <= |pts|
      invariant BucketsOf(g, pts, i, grid[..])
    {
      AddToBucket(g, pts, grid, i);
      i := i + 1;
    }
  }

  /** `grid[idx].push(i)` for the bucket of particle `i`. */
  method AddToBucket(g: Grid, pts: seq<Point>, grid: array<seq<nat>>, i: nat)
    requires WellFormed(g) && i < |pts| && BucketsOf(g, pts, i, grid[..])
    modifies grid
    ensures BucketsOf(g, pts, i + 1, grid[..])
  {
    var e := CellIndex(g, pts[i]);
    BucketStep(g, pts, i, grid[..]);
    grid[e] := grid[e] + [i];
    assert grid[..] == old(grid[..])[e := old(grid[..])[e] + [i]];
  }

  ghost function PairsOf(links: seq<Link>): set<(nat, nat)>
  {
    set k | 0 <= k < |links| :: (links[k].a, links[k].b)
  }

  /** No pair is reported twice. */
  ghost predicate EachOnce(links: seq<Link>)
  {
    forall k, l :: 0 <= k < l < |links| ==> (links[k].a, links[k].b) != (links[l].a, links[l].b)
  }

  /** Every link joins two particles and carries the alpha of their distance. */
  ghost predicate Exact(pts: seq<Point>, distMax: real, opacity: real, hypot: (real, real) -> real, links: seq<Link>)
  {
    forall k :: 0 <= k < |links| ==>
      links[k].a < links[k].b < |pts| &&
      links[k].alpha == Alpha(opacity, Dist(pts[links[k].a], pts[links[k].b], hypot), distMax)
  }

  /** The brute-force answer: every pair `i < j` within `distMax`. */
  ghost function AllPairs(pts: seq<Point>, distMax: real, hypot: (real, real) -> real): set<(nat, nat)>
  {
    set i: nat, j: nat | i < j < |pts| && Near(pts, i, j, distMax, hypot) :: (i, j)
  }

  /** The pairs of the brute-force answer whose first index is below `m`. */
  ghost function PairsBelow(pts: seq<Point>, distMax: real, hypot: (real, real) -> real, m: nat): set<(nat, nat)>
  {
    set i: nat, j: nat | i < m && i < j < |pts| && Near(pts, i, j, distMax, hypot) :: (i, j)
  }

  /** The pairs of the brute-force answer whose first index is `i`. */
  ghost function Row(pts: seq<Point>, distMax: real, hypot: (real, real) -> real, i: nat): set<(nat, nat)>
  {
    set j: nat | i < j < |pts| && Near(pts, i, j, distMax, hypot) :: (i, j)
  }

  lemma PairsBelowStep(pts: seq<Point>, distMax: real, hypot: (real, real) -> real, i: nat)
    ensures PairsBelow(pts, distMax, hypot, i + 1) == PairsBelow(pts, distMax, hypot, i) + Row(pts, distMax, hypot, i)
    ensures PairsBelow(pts, distMax, hypot, i) !! Row(pts, distMax, hypot, i)
  {
  }

  lemma PairsBelowAll(pts: seq<Point>, distMax: real, hypot: (real, real) -> real)
    ensures PairsBelow(pts, distMax, hypot, |pts|) == AllPairs(pts, distMax, hypot)
  {
  }

  lemma PairsOfAppend(s: seq<Link>, t: seq<Link>)
    ensures PairsOf(s + t) == PairsOf(s) + PairsOf(t)
  {
    var u := s + t;
    forall p | p in PairsOf(u) ensures p in PairsOf(s) + PairsOf(t) {
      var k :| 0 <= k < |u| && p == (u[k].a, u[k].b);
      if k < |s| {
        assert p == (s[k].a, s[k].b);
      } else {
        assert p == (t[k - |s|].a, t[k - |s|].b);
      }
    }
    forall p | p in PairsOf(t) ensures p in PairsOf(u) {
      var k :| 0 <= k < |t| && p == (t[k].a, t[k].b);
      assert u[|s| + k] == t[k];
    }
    forall p | p in PairsOf(s) ensures p in PairsOf(u) {
      var k :| 0 <= k < |s| && p == (s[k].a, s[k].b);
      assert u[k] == s[k];
    }
  }

  lemma PairsOfSingle(l: Link)
    ensures PairsOf([l]) == {(l.a, l.b)}
  {
    assert [l][0] == l;
  }

  lemma EachOnceAppend(s: seq<Link>, t: seq<Link>)
    requires EachOnce(s) && EachOnce(t) && PairsOf(s) !! PairsOf(t)
    ensures EachOnce(s + t)
  {
    var u := s + t;
    forall k, l | 0 <= k < l < |u| ensures (u[k].a, u[k].b) != (u[l].a, u[l].b) {
      if l < |s| {
        assert u[k] == s[k] && u[l] == s[l];
      } else if |s| <= k {
        assert u[k] == t[k - |s|] && u[l] == t[l - |s|];
      } else {
        assert u[k] == s[k] && u[l] == t[l - |s|];
        assert (u[k].a, u[k].b) in PairsOf(s);
        assert (u[l].a, u[l].b) in PairsOf(t);
      }
    }
  }

  /** Scans one bucket for the later particles within `distMax` of particle `i`. */
  method ScanBucket(pts: seq<Point>, distMax: real, opacity: real, hypot: (real, real) -> real,
                    i: nat, bucket: seq<nat>) returns (out: seq<Link>)
    requires i < |pts|
    requires forall k :: 0 <= k < |bucket| ==> bucket[k] < |pts|
    requires Increasing(bucket)
    ensures PairsOf(out) == set j: nat | j in bucket && i < j && Near(pts, i, j, distMax, hypot) :: (i, j)
    ensures EachOnce(out)
    ensures Exact(pts, distMax, opacity, hypot, out)
  {
    out := [];
    var k := 0;
    while k < |bucket|
      invariant 0 <= k <= |bucket|
      invariant PairsOf(out) == set j: nat | j in bucket[..k] && i < j && Near(pts, i, j, distMax, hypot) :: (i, j)
      invariant EachOnce(out)
      invariant Exact(pts, distMax, opacity, hypot, out)
    {
      var j := bucket[k];
      assert bucket[..k + 1] == bucket[..k] + [j];
      assert j !in bucket[..k];
      if i < j {
        var d := Dist(pts[i], pts[j], hypot);
        if d <= distMax {
          var link := Link(i, j, Alpha(opacity, d, distMax));
          PairsOfAppend(out, [link]);
          PairsOfSingle(link);
          EachOnceAppend(out, [link]);
          out := out + [link];
        }
      }
      k := k + 1;
    }
    assert bucket[..|bucket|] == bucket;
  }

  /**
   * A point's cell lies in the 3x3 block around `(cx, cy)` and precedes
   * `(gx, gy)` in the scan order (columns outer, rows inner).
   */
  ghost predicate ScannedBefore(g: Grid, p: Point, cx: int, cy: int, gx: int, gy: int)
    requires WellFormed(g)
  {
    var px := CellX(g, p);
    var py := CellY(g, p);
    cx - 1 <= px <= cx + 1 && cy - 1 <= py <= cy + 1 && (px < gx || (px == gx && py < gy))
  }

  ghost function Scanned(g: Grid, pts: seq<Point>, distMax: real, hypot: (real, real) -> real,
                         i: nat, cx: int, cy: int, gx: int, gy: int): set<(nat, nat)>
    requires WellFormed(g) && i < |pts|
  {
    set j: nat | i < j < |pts| && Near(pts, i, j, distMax, hypot) && ScannedBefore(g, pts[j], cx, cy, gx, gy) :: (i, j)
  }

  /** Every later particle within `distMax` of particle `i` lies in the 3x3 block around it. */
  lemma BlockCoversRow(g: Grid, pts: seq<Point>, distMax: real, hypot: (real, real) -> real, i: nat)
    requires WellFormed(g) && g.cell >= distMax && Dominates(hypot) && i < |pts|
    ensures Scanned(g, pts, distMax, hypot, i, CellX(g, pts[i]), CellY(g, pts[i]),
                    CellX(g, pts[i]) + 2, CellY(g, pts[i]) - 1) == Row(pts, distMax, hypot, i)
  {
    var cx: int, cy: int := CellX(g, pts[i]), CellY(g, pts[i]);
    forall j: nat | i < j < |pts| && Near(pts, i, j, distMax, hypot)
      ensures ScannedBefore(g, pts[j], cx, cy, cx + 2, cy - 1)
    {
      var dx, dy := pts[i].x - pts[j].x, pts[i].y - pts[j].y;
      assert Abs(dx) <= hypot(dx, dy) && Abs(dy) <= hypot(dx, dy);
      CellStep(pts[i].x, pts[j].x, g.cell, g.cols);
      CellStep(pts[i].y, pts[j].y, g.cell, g.rows);
    }
  }

  /** Scanning the bucket of cell `(gx, gy)` adds exactly that cell's pairs to those already scanned. */
  lemma CellScanStep(g: Grid, pts: seq<Point>, distMax: real, hypot: (real, real) -> real,
                     i: nat, cx: int, cy: int, gx: nat, gy: nat, bucket: seq<nat>, found: set<(nat, nat)>)
    requires WellFormed(g) && i < |pts| && gx < g.cols && gy < g.rows
    requires bucket == Bucket(g, pts, |pts|, FlatIndex(g, gx, gy))
    requires forall j :: j in bucket ==> j < |pts|
    requires found == set j: nat | j in bucket && i < j && Near(pts, i, j, distMax, hypot) :: (i, j)
    requires cx - 1 <= gx <= cx + 1 && cy - 1 <= gy <= cy + 1
    ensures Scanned(g, pts, distMax, hypot, i, cx, cy, gx, gy + 1)
         == Scanned(g, pts, distMax, hypot, i, cx, cy, gx, gy) + found
    ensures Scanned(g, pts, distMax, hypot, i, cx, cy, gx, gy) !! found
  {
    BucketMembers(g, pts, |pts|, FlatIndex(g, gx, gy));
    forall j: nat | j < |pts| ensures j in bucket <==> CellX(g, pts[j]) == gx && CellY(g, pts[j]) == gy {
      if j in bucket {
        FlatIndexInjective(g, CellX(g, pts[j]), CellY(g, pts[j]), gx, gy);
      }
    }
  }

  /** Scans the 3x3 block of cells around particle `i`. */
  method ScanBlock(g: Grid, grid: array<seq<nat>>, pts: seq<Point>, distMax: real, opacity: real,
                   hypot: (real, real) -> real, i: nat) returns (out: seq<Link>)
    requires WellFormed(g) && g.cell >= distMax && Dominates(hypot) && i < |pts|
    requires grid.Length == g.cols * g.rows
    requires BucketsOf(g, pts, |pts|, grid[..])
    ensures PairsOf(out) == Row(pts, distMax, hypot, i)
    ensures EachOnce(out)
    ensures Exact(pts, distMax, opacity, hypot, out)
  {
    var cx := CellX(g, pts[i]);
    var cy := CellY(g, pts[i]);
    out := [];
    var gx := cx - 1;
    while gx <= cx + 1
      invariant cx - 1 <= gx <= cx + 2
      invariant PairsOf(out) == Scanned(g, pts, distMax, hypot, i, cx, cy, gx, cy - 1)
      invariant EachOnce(out)
      invariant Exact(pts, distMax, opacity, hypot, out)
    {
      var gy := cy - 1;
      while gy <= cy + 1
        invariant cy - 1 <= gy <= cy + 2
        invariant PairsOf(out) == Scanned(g, pts, distMax, hypot, i, cx, cy, gx, gy)
        invariant EachOnce(out)
        invariant Exact(pts, distMax, opacity, hypot, out)
      {
        var before := Scanned(g, pts, distMax, hypot, i, cx, cy, gx, gy);
        var after := Scanned(g, pts, distMax, hypot, i, cx, cy, gx, gy + 1);
        if 0 <= gx < g.cols && 0 <= gy < g.rows {
          var bucket := grid[FlatIndex(g, gx, gy)];
          assert bucket == grid[..][FlatIndex(g, gx, gy)];
          BucketScannable(g, pts, FlatIndex(g, gx, gy), bucket);
          var part := ScanBucket(pts, distMax, opacity, hypot, i, bucket);
          CellScanStep(g, pts, distMax, hypot, i, cx, cy, gx, gy, bucket, PairsOf(part));
          PairsOfAppend(out, part);
          EachOnceAppend(out, part);
          out := out + part;
        } else {
          assert after == before;
        }
        gy := gy + 1;
      }
      assert Scanned(g, pts, distMax, hypot, i, cx, cy, gx, cy + 2)
          == Scanned(g, pts, distMax, hypot, i, cx, cy, gx + 1, cy - 1);
      gx := gx + 1;
    }
    BlockCoversRow(g, pts, distMax, hypot, i);
  }

  /**
   * `_linkParticles` without the painting: the links between particles
   * within `distMax` of each other, found through the grid. The reported pairs
   * are exactly the brute-force pairs, none of them twice.
   */
  method QueryLinks(pts: seq<Point>, distMax: real, opacity: real, width: real, height: real,
                    hypot: (real, real) -> real) returns (links: seq<Link>)
    requires Dominates(hypot)
    ensures PairsOf(links) == AllPairs(pts, distMax, hypot)
    ensures EachOnce(links)
    ensures Exact(pts, distMax, opacity, hypot, links)
  {
    var g := GridFor(distMax, width, height);
    var grid := BuildGrid(g, pts);
    links := [];
    var i := 0;
    while i < |pts|
      invariant 0 <= i <= |pts|
      invariant BucketsOf(g, pts, |pts|, grid[..])
      invariant PairsOf(links) == PairsBelow(pts, distMax, hypot, i)
      invariant EachOnce(links)
      invariant Exact(pts, distMax, opacity, hypot, links)
    {
      var row := ScanBlock(g, grid, pts, distMax, opacity, hypot, i);
      PairsBelowStep(pts, distMax, hypot, i);
      PairsOfAppend(links, row);
      EachOnceAppend(links, row);
      links := links + row;
      i := i + 1;
    }
    PairsBelowAll(pts, distMax, hypot);
  }
}
