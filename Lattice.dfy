/**
 * The n-by-n lattice of sites behind the percolation grid.
 *
 * Sites have 1-based (row, col) coordinates.  For the union-find they are
 * flattened row-major into ids 0 .. n*n-1; id n*n is the virtual top and
 * n*n+1 the virtual bottom.  The lattice graph joins two open sites that
 * are up/down/left/right neighbours, and joins the virtual top to every
 * open site of row 1.  A site is full when a path of this graph leads to it
 * from the virtual top, and the system percolates when some site of row n
 * is full.
 */
module Lattice {

  // ---------------------------------------------------------------------
  // Coordinates and ids

  /** A 1-based row or column index that lies outside [1, n]: exactly when
    * index - 1 is not a legal 0-based index of an n-long row of the bitmap.
    * Only a non-empty grid has an index in bounds. */
  predicate IndexOutOfBounds(n: int, index: int): (out: bool)
    ensures !out <==> 0 <= index - 1 < n
    ensures !out ==> n >= 1
  {
    index < 1 || index > n
  }

  /** Row-major id of site (row, col). */
  function SiteID(n: int, row: int, col: int): (id: int)
    requires !IndexOutOfBounds(n, row) && !IndexOutOfBounds(n, col)
    ensures 0 <= id < n * n
  {
    MulMonotone(row - 1, n - 1, n);
    (row - 1) * n + col - 1
  }

  /** Id of the virtual top site: the first id after every site id. */
  function Top(n: int): (t: int)
    ensures forall row, col :: !IndexOutOfBounds(n, row) && !IndexOutOfBounds(n, col) ==> SiteID(n, row, col) < t
  {
    n * n
  }

  /** Id of the virtual bottom site: the id right after the virtual top,
    * and the last of the n*n + 2 ids. */
  function Bottom(n: int): (b: int)
    ensures b == Top(n) + 1 && b == n * n + 2 - 1
  {
    n * n + 1
  }

  /** Row of the site with the given id. */
  function Row(n: int, id: int): (row: int)
    requires n >= 1 && 0 <= id < n * n
    ensures !IndexOutOfBounds(n, row)
  {
    DivBelow(id, n);
    id / n + 1
  }

  /** Column of the site with the given id. */
  function Col(n: int, id: int): (col: int)
    requires n >= 1 && 0 <= id < n * n
    ensures !IndexOutOfBounds(n, col)
  {
    DivBelow(id, n);
    id % n + 1
  }

  lemma MulMonotone(a: int, b: int, n: int)
    requires 0 <= a <= b && 0 <= n
    ensures a * n <= b * n
  {
  }

  lemma DivBelow(id: int, n: int)
    requires n >= 1 && 0 <= id < n * n
    ensures 0 <= id / n < n && 0 <= id % n < n
  {
    if id / n >= n {
      MulMonotone(n, id / n, n);
    }
  }

  lemma DivModUnique(x: int, n: int, q: int, r: int)
    requires n >= 1 && 0 <= r < n && x == q * n + r
    ensures x / n == q && x % n == r
  {
    var q', r' := x / n, x % n;
    assert x == q' * n + r';
    assert (q - q') * n == r' - r;
    if q > q' {
      MulMonotone(1, q - q', n);
    } else if q < q' {
      MulMonotone(1, q' - q, n);
    }
  }

  /** The coordinates of SiteID(row, col) are row and col. */
  lemma SiteIDCoordinates(n: int, row: int, col: int)
    requires !IndexOutOfBounds(n, row) && !IndexOutOfBounds(n, col)
    ensures Row(n, SiteID(n, row, col)) == row && Col(n, SiteID(n, row, col)) == col
  {
    DivModUnique(SiteID(n, row, col), n, row - 1, col - 1);
  }

  /** Every id in [0, n*n) is the id of its own coordinates, so the site
    * ids cover [0, n*n). */
  lemma CoordinatesSiteID(n: int, id: int)
    requires n >= 1 && 0 <= id < n * n
    ensures SiteID(n, Row(n, id), Col(n, id)) == id
  {
    DivBelow(id, n);
  }

  /** Distinct coordinates give distinct ids, and no site id is one of the
    * virtual sites. */
  lemma SiteIDInjective(n: int, r1: int, c1: int, r2: int, c2: int)
    requires !IndexOutOfBounds(n, r1) && !IndexOutOfBounds(n, c1)
    requires !IndexOutOfBounds(n, r2) && !IndexOutOfBounds(n, c2)
    ensures SiteID(n, r1, c1) == SiteID(n, r2, c2) <==> r1 == r2 && c1 == c2
    ensures SiteID(n, r1, c1) != Top(n) && SiteID(n, r1, c1) != Bottom(n)
  {
    SiteIDCoordinates(n, r1, c1);
    SiteIDCoordinates(n, r2, c2);
  }

  /** A set of integers in [0, m) has at most m elements. */
  lemma {:induction false} BoundedSetSize(s: set<int>, m: int)
    requires m >= 0 && forall x :: x in s ==> 0 <= x < m
    ensures |s| <= m
    decreases m
  {
    if m > 0 {
      var rest := s - {m - 1};
      BoundedSetSize(rest, m - 1);
      if m - 1 in s {
        assert s == rest + {m - 1};
      } else {
        assert s == rest;
      }
    } else {
      assert forall x :: x !in s;
      assert s == {};
    }
  }

  /** Coordinates that all lie in the grid. */
  predicate InGridCells(n: int, cells: set<(int, int)>)
  {
    forall p :: p in cells ==> !IndexOutOfBounds(n, p.0) && !IndexOutOfBounds(n, p.1)
  }

  /** The ids of a set of cells are as many as the cells. */
  lemma {:induction false} CellIdsSize(n: int, cells: set<(int, int)>)
    requires InGridCells(n, cells)
    ensures |set p | p in cells :: SiteID(n, p.0, p.1)| == |cells|
    decreases |cells|
  {
    if cells != {} {
      var x :| x in cells;
      var rest := cells - {x};
      CellIdsSize(n, rest);
      var ids := set p | p in cells :: SiteID(n, p.0, p.1);
      var restIds := set p | p in rest :: SiteID(n, p.0, p.1);
      forall p | p in rest ensures SiteID(n, p.0, p.1) != SiteID(n, x.0, x.1) {
        SiteIDInjective(n, p.0, p.1, x.0, x.1);
      }
      assert ids == restIds + {SiteID(n, x.0, x.1)};
    }
  }

  /** A grid has at most n*n open cells. */
  lemma CellsBound(n: int, cells: set<(int, int)>)
    requires InGridCells(n, cells)
    ensures |cells| <= n * n
  {
    CellIdsSize(n, cells);
    if n >= 1 {
      BoundedSetSize(set p | p in cells :: SiteID(n, p.0, p.1), n * n);
    } else {
      assert cells == {};
    }
  }

  // ---------------------------------------------------------------------
  // The lattice graph

  /** A node of the lattice graph: a site or the virtual top. */
  datatype Vertex = VirtualTop | Site(row: int, col: int)

  predicate InGrid(n: int, v: Vertex)
  {
    v.VirtualTop? || (!IndexOutOfBounds(n, v.row) && !IndexOutOfBounds(n, v.col))
  }

  /** The union-find element of a vertex. */
  function Id(n: int, v: Vertex): (id: int)
    requires InGrid(n, v)
    ensures 0 <= id <= n * n
  {
    if v.VirtualTop? then Top(n) else SiteID(n, v.row, v.col)
  }

  /** Distinct vertices are distinct union-find elements. */
  lemma IdInjective(n: int, u: Vertex, v: Vertex)
    requires InGrid(n, u) && InGrid(n, v)
    ensures Id(n, u) == Id(n, v) <==> u == v
  {
    if u.Site? { SiteIDInjective(n, u.row, u.col, u.row, u.col); }
    if v.Site? { SiteIDInjective(n, v.row, v.col, v.row, v.col); }
    if u.Site? && v.Site? { SiteIDInjective(n, u.row, u.col, v.row, v.col); }
  }

  /** v is a site of the grid and open. */
  predicate IsOpenSite(n: int, open: set<(int, int)>, v: Vertex)
  {
    v.Site? && InGrid(n, v) && (v.row, v.col) in open
  }

  /** u and v are sites that are up/down/left/right neighbours (never
    * diagonal). */
  predicate Adjacent(u: Vertex, v: Vertex)
  {
    u.Site? && v.Site?
    && ((u.row == v.row && (u.col == v.col + 1 || v.col == u.col + 1))
        || (u.col == v.col && (u.row == v.row + 1 || v.row == u.row + 1)))
  }

  /** An edge of the lattice graph over the open sites and the virtual top. */
  predicate Edge(n: int, open: set<(int, int)>, u: Vertex, v: Vertex)
  {
    (u.VirtualTop? && IsOpenSite(n, open, v) && v.row == 1)
    || (v.VirtualTop? && IsOpenSite(n, open, u) && u.row == 1)
    || (IsOpenSite(n, open, u) && IsOpenSite(n, open, v) && Adjacent(u, v))
  }

  /** The vertices that an open site (row, col) has edges to: the virtual
    * top when it is in row 1, and its open in-grid neighbours above, below,
    * to the left and to the right. */
  function Neighbours(n: int, open: set<(int, int)>, row: int, col: int): set<Vertex>
  {
    (if row == 1 then {VirtualTop} else {})
    + (if IsOpenSite(n, open, Site(row - 1, col)) then {Site(row - 1, col)} else {})
    + (if IsOpenSite(n, open, Site(row + 1, col)) then {Site(row + 1, col)} else {})
    + (if IsOpenSite(n, open, Site(row, col - 1)) then {Site(row, col - 1)} else {})
    + (if IsOpenSite(n, open, Site(row, col + 1)) then {Site(row, col + 1)} else {})
  }

  /** The edges at an open site are exactly those to its Neighbours; there
    * is none to a diagonal site. */
  lemma EdgesAtSite(n: int, open: set<(int, int)>, row: int, col: int, v: Vertex)
    requires (row, col) in open && !IndexOutOfBounds(n, row) && !IndexOutOfBounds(n, col)
    ensures Edge(n, open, Site(row, col), v) <==> v in Neighbours(n, open, row, col)
  {
  }

  lemma EdgeSymmetric(n: int, open: set<(int, int)>, u: Vertex, v: Vertex)
    ensures Edge(n, open, u, v) <==> Edge(n, open, v, u)
  {
  }

  /** Step i of p is an edge. */
  ghost predicate Step(n: int, open: set<(int, int)>, p: seq<Vertex>, i: int)
    requires 0 <= i < |p| - 1
  {
    Edge(n, open, p[i], p[i + 1])
  }

  /** A walk through sites and the virtual top along edges of the lattice
    * graph. */
  ghost predicate IsPath(n: int, open: set<(int, int)>, p: seq<Vertex>)
  {
    |p| >= 1
    && (forall i :: 0 <= i < |p| ==> InGrid(n, p[i]))
    && (forall i :: 0 <= i < |p| - 1 ==> Step(n, open, p, i))
  }

  /** p is a path from x to y. */
  ghost predicate PathFrom(n: int, open: set<(int, int)>, p: seq<Vertex>, x: Vertex, y: Vertex)
  {
    IsPath(n, open, p) && p[0] == x && p[|p| - 1] == y
  }

  /** Some path leads from x to y. */
  ghost predicate Connects(n: int, open: set<(int, int)>, x: Vertex, y: Vertex)
  {
    exists p :: PathFrom(n, open, p, x, y)
  }

  /** Site (row, col) is full: water reaches it from the top. */
  ghost predicate Full(n: int, open: set<(int, int)>, row: int, col: int)
  {
    Connects(n, open, VirtualTop, Site(row, col))
  }

  /** Some site of the bottom row is full. */
  ghost predicate Percolating(n: int, open: set<(int, int)>)
  {
    exists col :: !IndexOutOfBounds(n, col) && Full(n, open, n, col)
  }

  // ---------------------------------------------------------------------
  // Paths

  lemma ConnectsReflexive(n: int, open: set<(int, int)>, x: Vertex)
    requires InGrid(n, x)
    ensures Connects(n, open, x, x)
  {
    assert PathFrom(n, open, [x], x, x);
  }

  lemma ConnectsEdge(n: int, open: set<(int, int)>, u: Vertex, v: Vertex)
    requires Edge(n, open, u, v)
    ensures Connects(n, open, u, v)
  {
    var p := [u, v];
    assert Step(n, open, p, 0);
    assert PathFrom(n, open, p, u, v);
  }

  lemma ConnectsTransitive(n: int, open: set<(int, int)>, x: Vertex, y: Vertex, z: Vertex)
    requires Connects(n, open, x, y) && Connects(n, open, y, z)
    ensures Connects(n, open, x, z)
  {
    var p :| PathFrom(n, open, p, x, y);
    var q :| PathFrom(n, open, q, y, z);
    var r := p + q[1..];
    forall i | 0 <= i < |r| - 1 ensures Step(n, open, r, i) {
      if i < |p| - 1 {
        assert Step(n, open, p, i);
      } else {
        assert Step(n, open, q, i - |p| + 1);
      }
    }
    assert PathFrom(n, open, r, x, z);
  }

  lemma ConnectsSymmetric(n: int, open: set<(int, int)>, x: Vertex, y: Vertex)
    requires Connects(n, open, x, y)
    ensures Connects(n, open, y, x)
  {
    var p :| PathFrom(n, open, p, x, y);
    var r := seq(|p|, i requires 0 <= i < |p| => p[|p| - 1 - i]);
    forall i | 0 <= i < |r| - 1 ensures Step(n, open, r, i) {
      assert Step(n, open, p, |p| - 2 - i);
    }
    assert PathFrom(n, open, r, y, x);
  }

  /** Opening more sites keeps every path. */
  lemma ConnectsMonotone(n: int, open: set<(int, int)>, open': set<(int, int)>, x: Vertex, y: Vertex)
    requires open <= open' && Connects(n, open, x, y)
    ensures Connects(n, open', x, y)
  {
    var p :| PathFrom(n, open, p, x, y);
    forall i | 0 <= i < |p| - 1 ensures Step(n, open', p, i) {
      assert Step(n, open, p, i);
    }
    assert PathFrom(n, open', p, x, y);
  }

  /** No edge of the lattice graph leaves the vertex set R. */
  ghost predicate EdgeClosed(n: int, open: set<(int, int)>, R: set<Vertex>)
  {
    forall a, b :: a in R && Edge(n, open, a, b) ==> b in R
  }

  /** A path that starts in a set no edge leaves ends in it. */
  lemma {:induction false} PathStaysIn(n: int, open: set<(int, int)>, R: set<Vertex>, p: seq<Vertex>)
    requires IsPath(n, open, p) && p[0] in R && EdgeClosed(n, open, R)
    ensures p[|p| - 1] in R
    decreases |p|
  {
    if |p| > 1 {
      var q := p[..|p| - 1];
      forall i | 0 <= i < |q| - 1 ensures Step(n, open, q, i) {
        assert Step(n, open, p, i);
      }
      PathStaysIn(n, open, R, q);
      assert Step(n, open, p, |p| - 2);
    }
  }

  /** Everything reachable from a set that no edge leaves lies in it: the
    * way to show that a site is not full. */
  lemma ConnectsStaysIn(n: int, open: set<(int, int)>, R: set<Vertex>, x: Vertex, y: Vertex)
    requires x in R && EdgeClosed(n, open, R) && Connects(n, open, x, y)
    ensures y in R
  {
    var p :| PathFrom(n, open, p, x, y);
    PathStaysIn(n, open, R, p);
  }
}
