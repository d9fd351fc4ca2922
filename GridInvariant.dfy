/**
 * What the grid's union-find means, stated on values: the labelling L of
 * the n*n+2 elements (sites, virtual top, virtual bottom) against the set
 * of open cells.  The grid keeps Inv after construction and after every
 * open, and the lemmas here are the steps of that argument.
 */
module GridInvariant {
  import opened UnionFind
  import opened Lattice

  /** Every union-find connection among sites and the virtual top is a path
    * of the lattice graph: the structure never joins what water could not
    * cross (no backwash). */
  ghost predicate Sound(n: int, open: set<(int, int)>, L: seq<int>)
  {
    forall x, y {:trigger Connects(n, open, x, y)} ::
      InGrid(n, x) && InGrid(n, y) && SameIn(L, Id(n, x), Id(n, y)) ==> Connects(n, open, x, y)
  }

  /** Every edge of the lattice graph has been joined. */
  ghost predicate Closed(n: int, open: set<(int, int)>, L: seq<int>)
  {
    forall u, v {:trigger Edge(n, open, u, v)} :: Edge(n, open, u, v) ==> SameIn(L, Id(n, u), Id(n, v))
  }

  /** The virtual bottom is alone or in the component of the virtual top. */
  ghost predicate BottomJoinsTop(n: int, L: seq<int>)
  {
    forall x :: 0 <= x <= n * n && SameIn(L, x, Bottom(n)) ==> SameIn(L, x, Top(n))
  }

  /** The virtual sites are joined exactly when a bottom-row site is joined
    * to the virtual top. */
  ghost predicate BottomRowIff(n: int, L: seq<int>)
  {
    SameIn(L, Top(n), Bottom(n)) <==>
      exists col :: !IndexOutOfBounds(n, col) && SameIn(L, SiteID(n, n, col), Top(n))
  }

  ghost predicate Inv(n: int, open: set<(int, int)>, L: seq<int>)
  {
    n >= 1 && |L| == n * n + 2 && InGridCells(n, open)
    && Sound(n, open, L) && Closed(n, open, L)
    && BottomJoinsTop(n, L) && BottomRowIff(n, L)
  }

  /** The union-find as first built, over a grid with no open site. */
  lemma InitInv(n: int, L: seq<int>)
    requires n >= 1 && |L| == n * n + 2
    requires forall x, y :: SameIn(L, x, y) <==> 0 <= x < |L| && x == y
    ensures Inv(n, {}, L) && !SameIn(L, Top(n), Bottom(n))
  {
    forall x, y | InGrid(n, x) && InGrid(n, y) && SameIn(L, Id(n, x), Id(n, y))
      ensures Connects(n, {}, x, y)
    {
      IdInjective(n, x, y);
      ConnectsReflexive(n, {}, x);
    }
    forall col | !IndexOutOfBounds(n, col) ensures !SameIn(L, SiteID(n, n, col), Top(n)) {
      SiteIDInjective(n, n, col, n, col);
    }
  }

  /** In a labelling that joins every edge, the ends of a path are joined. */
  lemma {:induction false} ClosedPath(n: int, open: set<(int, int)>, L: seq<int>, p: seq<Vertex>)
    requires |L| == n * n + 2 && Closed(n, open, L) && IsPath(n, open, p)
    ensures SameIn(L, Id(n, p[0]), Id(n, p[|p| - 1]))
    decreases |p|
  {
    if |p| > 1 {
      var q := p[..|p| - 1];
      forall i | 0 <= i < |q| - 1 ensures Step(n, open, q, i) {
        assert Step(n, open, p, i);
      }
      ClosedPath(n, open, L, q);
      assert Step(n, open, p, |p| - 2);
    }
  }

  /** Under Inv, being joined to the virtual top is exactly being full. */
  lemma FullIff(n: int, open: set<(int, int)>, L: seq<int>, row: int, col: int)
    requires Inv(n, open, L) && !IndexOutOfBounds(n, row) && !IndexOutOfBounds(n, col)
    ensures SameIn(L, Top(n), SiteID(n, row, col)) <==> Full(n, open, row, col)
  {
    assert Id(n, Site(row, col)) == SiteID(n, row, col);
    if Full(n, open, row, col) {
      var p :| PathFrom(n, open, p, VirtualTop, Site(row, col));
      ClosedPath(n, open, L, p);
    }
    if SameIn(L, Top(n), SiteID(n, row, col)) {
      assert Connects(n, open, VirtualTop, Site(row, col));
    }
  }

  /** Under Inv, the virtual sites are joined exactly when the grid
    * percolates. */
  lemma PercolatesIff(n: int, open: set<(int, int)>, L: seq<int>)
    requires Inv(n, open, L)
    ensures SameIn(L, Top(n), Bottom(n)) <==> Percolating(n, open)
  {
    if SameIn(L, Top(n), Bottom(n)) {
      var col :| !IndexOutOfBounds(n, col) && SameIn(L, SiteID(n, n, col), Top(n));
      FullIff(n, open, L, n, col);
    }
    if Percolating(n, open) {
      var col :| !IndexOutOfBounds(n, col) && Full(n, open, n, col);
      FullIff(n, open, L, n, col);
    }
  }

  // ---------------------------------------------------------------------
  // The steps of open

  /** What holds while a newly opened site s is being joined to its
    * neighbours: L started as L0, the vertices in joined are joined to s,
    * and either s is joined to the virtual top or the top's component is
    * the one it was. */
  ghost predicate Progress(n: int, open: set<(int, int)>, L0: seq<int>, L: seq<int>, s: Vertex, joined: set<Vertex>)
  {
    n >= 1 && |L0| == |L| == n * n + 2 && s.Site? && InGrid(n, s)
    && Sound(n, open, L) && BottomJoinsTop(n, L) && Refines(L0, L)
    && (forall v :: v in joined ==> InGrid(n, v) && SameIn(L, Id(n, s), Id(n, v)))
    && (SameIn(L, Id(n, s), Top(n)) || forall x :: SameIn(L, x, Top(n)) <==> SameIn(L0, x, Top(n)))
    && (SameIn(L, Top(n), Bottom(n)) ==> SameIn(L0, Top(n), Bottom(n)))
  }

  lemma ProgressStart(n: int, open0: set<(int, int)>, open: set<(int, int)>, L0: seq<int>, s: Vertex)
    requires Inv(n, open0, L0) && open0 <= open && s.Site? && InGrid(n, s)
    ensures Progress(n, open, L0, L0, s, {})
  {
    forall x, y | InGrid(n, x) && InGrid(n, y) && SameIn(L0, Id(n, x), Id(n, y))
      ensures Connects(n, open, x, y)
    {
      assert Connects(n, open0, x, y);
      ConnectsMonotone(n, open0, open, x, y);
    }
  }

  /** Joining s to a vertex b it has an edge to keeps Progress. */
  lemma ProgressStep(n: int, open: set<(int, int)>, L0: seq<int>, L: seq<int>, s: Vertex, joined: set<Vertex>, b: Vertex)
    requires Progress(n, open, L0, L, s, joined) && Edge(n, open, s, b)
    ensures InGrid(n, b)
    ensures Progress(n, open, L0, Merge(L, Id(n, s), Id(n, b)), s, joined + {b})
  {
    var i, j := Id(n, s), Id(n, b);
    var M := Merge(L, i, j);
    MergeRefines(L, i, j);
    RefinesTransitive(L0, L, M);
    ConnectsEdge(n, open, s, b);
    ConnectsSymmetric(n, open, s, b);
    assert SameIn(L, j, Bottom(n)) ==> SameIn(L, j, Top(n));
    assert SameIn(L, i, Bottom(n)) ==> SameIn(L, i, Top(n));
    forall x, y | InGrid(n, x) && InGrid(n, y) && SameIn(M, Id(n, x), Id(n, y))
      ensures Connects(n, open, x, y)
    {
      MergeSame(L, i, j, Id(n, x), Id(n, y));
      if SameIn(L, Id(n, x), i) && SameIn(L, Id(n, y), j) {
        assert Connects(n, open, x, s) && Connects(n, open, b, y);
        ConnectsTransitive(n, open, x, s, b);
        ConnectsTransitive(n, open, x, b, y);
      } else if SameIn(L, Id(n, x), j) && SameIn(L, Id(n, y), i) {
        assert Connects(n, open, x, b) && Connects(n, open, s, y);
        ConnectsTransitive(n, open, x, b, s);
        ConnectsTransitive(n, open, x, s, y);
      } else {
        assert Connects(n, open, x, y);
      }
    }
    forall x | 0 <= x <= n * n && SameIn(M, x, Bottom(n)) ensures SameIn(M, x, Top(n)) {
      MergeSame(L, i, j, x, Bottom(n));
      MergeSame(L, i, j, x, Top(n));
    }
    forall v | v in joined + {b} ensures InGrid(n, v) && SameIn(M, i, Id(n, v)) {
      if v != b {
        assert SameIn(L, i, Id(n, v));
      }
    }
    if !SameIn(M, i, Top(n)) {
      MergeKeepsOtherClass(L, i, j, Top(n));
    }
    MergeSame(L, i, j, Top(n), Bottom(n));
  }

  /** Once every edge at s is joined, the labelling joins every edge. */
  lemma NeighboursDone(n: int, open0: set<(int, int)>, open: set<(int, int)>, L0: seq<int>, L: seq<int>, s: Vertex, joined: set<Vertex>)
    requires Inv(n, open0, L0) && s.Site? && open == open0 + {(s.row, s.col)} && Progress(n, open, L0, L, s, joined)
    requires forall v :: Edge(n, open, s, v) ==> v in joined
    ensures Closed(n, open, L)
  {
    forall u, v | Edge(n, open, u, v) ensures SameIn(L, Id(n, u), Id(n, v)) {
      if u == s {
      } else if v == s {
        EdgeSymmetric(n, open, u, v);
      } else {
        assert Edge(n, open0, u, v);
        assert SameIn(L0, Id(n, u), Id(n, v));
      }
    }
  }

  /** The state between the neighbour unions of open and its bottom-row
    * scan: L0 was the labelling before open, L joins every edge and nothing
    * else, and either the new site `id` is joined to the virtual top or the
    * top's component is unchanged. */
  ghost predicate AfterUnions(n: int, open: set<(int, int)>, L0: seq<int>, L: seq<int>, id: int)
  {
    n >= 1 && |L0| == |L| == n * n + 2 && 0 <= id < n * n && InGridCells(n, open)
    && Sound(n, open, L) && Closed(n, open, L) && BottomJoinsTop(n, L)
    && Refines(L0, L) && BottomRowIff(n, L0)
    && (SameIn(L, id, Top(n)) || forall x :: SameIn(L, x, Top(n)) <==> SameIn(L0, x, Top(n)))
    && (SameIn(L, Top(n), Bottom(n)) ==> SameIn(L0, Top(n), Bottom(n)))
  }

  /** Column c is the first column whose bottom-row site is joined to the
    * virtual top. */
  ghost predicate FirstFullBottom(n: int, L: seq<int>, c: int)
  {
    !IndexOutOfBounds(n, c) && SameIn(L, SiteID(n, n, c), Top(n))
    && forall j :: 1 <= j < c ==> !SameIn(L, SiteID(n, n, j), Top(n))
  }

  /** The labelling after joining site (row, col) to site (r, c) when
    * (r, c) is in the grid and open, and L itself otherwise. */
  ghost function UnionIfOpen(n: int, open: set<(int, int)>, L: seq<int>, row: int, col: int, r: int, c: int): (M: seq<int>)
    requires |L| == n * n + 2 && !IndexOutOfBounds(n, row) && !IndexOutOfBounds(n, col)
    ensures |M| == |L|
  {
    if !IndexOutOfBounds(n, r) && !IndexOutOfBounds(n, c) && (r, c) in open then
      Merge(L, SiteID(n, row, col), SiteID(n, r, c))
    else
      L
  }

  /** The labelling after the unions that open performs for a newly opened
    * site (row, col): with the virtual top when it is in row 1, then with
    * each open neighbour above, below, to the left and to the right. */
  ghost function NeighbourUnions(n: int, open: set<(int, int)>, L: seq<int>, row: int, col: int): (M: seq<int>)
    requires |L| == n * n + 2 && !IndexOutOfBounds(n, row) && !IndexOutOfBounds(n, col)
    ensures |M| == |L|
  {
    SiteUnions(n, open, if row == 1 then Merge(L, SiteID(n, row, col), Top(n)) else L, row, col)
  }

  /** The conditional unions of (row, col) with its upper, lower, left and
    * right neighbour, in that order. */
  ghost function SiteUnions(n: int, open: set<(int, int)>, L: seq<int>, row: int, col: int): (M: seq<int>)
    requires |L| == n * n + 2 && !IndexOutOfBounds(n, row) && !IndexOutOfBounds(n, col)
    ensures |M| == |L|
  {
    UnionIfOpen(n, open, UnionIfOpen(n, open, UnionIfOpen(n, open, UnionIfOpen(n, open, L,
      row, col, row - 1, col), row, col, row + 1, col), row, col, row, col - 1), row, col, row, col + 1)
  }

  /** The unions of open, one step at a time, give NeighbourUnions. */
  lemma NeighbourUnionsIs(n: int, open: set<(int, int)>, L0: seq<int>, L1: seq<int>, L2: seq<int>,
                          L3: seq<int>, L4: seq<int>, L5: seq<int>, row: int, col: int)
    requires |L0| == n * n + 2 && !IndexOutOfBounds(n, row) && !IndexOutOfBounds(n, col)
    requires L1 == if row == 1 then Merge(L0, SiteID(n, row, col), Top(n)) else L0
    requires L2 == UnionIfOpen(n, open, L1, row, col, row - 1, col)
    requires L3 == UnionIfOpen(n, open, L2, row, col, row + 1, col)
    requires L4 == UnionIfOpen(n, open, L3, row, col, row, col - 1)
    requires L5 == UnionIfOpen(n, open, L4, row, col, row, col + 1)
    ensures L5 == NeighbourUnions(n, open, L0, row, col)
  {
  }

  /** One conditional union keeps Progress, and adds the neighbour to the
    * joined vertices when it is open. */
  lemma ProgressUnionIfOpen(n: int, open: set<(int, int)>, L0: seq<int>, L: seq<int>, row: int, col: int,
                            joined: set<Vertex>, r: int, c: int)
    requires Progress(n, open, L0, L, Site(row, col), joined) && (row, col) in open
    requires Adjacent(Site(row, col), Site(r, c))
    ensures Progress(n, open, L0, UnionIfOpen(n, open, L, row, col, r, c), Site(row, col),
                     joined + if IsOpenSite(n, open, Site(r, c)) then {Site(r, c)} else {})
  {
    if IsOpenSite(n, open, Site(r, c)) {
      ProgressStep(n, open, L0, L, Site(row, col), joined, Site(r, c));
    }
  }

  /** The unions with the left and the right neighbour keep Progress. */
  lemma ProgressLeftRight(n: int, open: set<(int, int)>, L0: seq<int>, L: seq<int>, row: int, col: int,
                          joined: set<Vertex>)
    requires Progress(n, open, L0, L, Site(row, col), joined) && (row, col) in open
    ensures Progress(n, open, L0,
                     UnionIfOpen(n, open, UnionIfOpen(n, open, L, row, col, row, col - 1), row, col, row, col + 1),
                     Site(row, col),
                     joined + (if IsOpenSite(n, open, Site(row, col - 1)) then {Site(row, col - 1)} else {})
                            + (if IsOpenSite(n, open, Site(row, col + 1)) then {Site(row, col + 1)} else {}))
  {
    ProgressUnionIfOpen(n, open, L0, L, row, col, joined, row, col - 1);
    ProgressUnionIfOpen(n, open, L0, UnionIfOpen(n, open, L, row, col, row, col - 1), row, col,
                        joined + (if IsOpenSite(n, open, Site(row, col - 1)) then {Site(row, col - 1)} else {}),
                        row, col + 1);
  }

  /** The unions with the lower, the left and the right neighbour keep
    * Progress. */
  lemma ProgressDownLeftRight(n: int, open: set<(int, int)>, L0: seq<int>, L: seq<int>, row: int, col: int,
                              joined: set<Vertex>)
    requires Progress(n, open, L0, L, Site(row, col), joined) && (row, col) in open
    ensures Progress(n, open, L0,
                     UnionIfOpen(n, open, UnionIfOpen(n, open, UnionIfOpen(n, open, L, row, col, row + 1, col),
                                                      row, col, row, col - 1), row, col, row, col + 1),
                     Site(row, col),
                     joined + (if IsOpenSite(n, open, Site(row + 1, col)) then {Site(row + 1, col)} else {})
                            + (if IsOpenSite(n, open, Site(row, col - 1)) then {Site(row, col - 1)} else {})
                            + (if IsOpenSite(n, open, Site(row, col + 1)) then {Site(row, col + 1)} else {}))
  {
    ProgressUnionIfOpen(n, open, L0, L, row, col, joined, row + 1, col);
    ProgressLeftRight(n, open, L0, UnionIfOpen(n, open, L, row, col, row + 1, col), row, col,
                      joined + (if IsOpenSite(n, open, Site(row + 1, col)) then {Site(row + 1, col)} else {}));
  }

  /** The unions with the four neighbours keep Progress. */
  lemma ProgressNeighbours(n: int, open: set<(int, int)>, L0: seq<int>, L: seq<int>, row: int, col: int,
                           joined: set<Vertex>)
    requires Progress(n, open, L0, L, Site(row, col), joined) && (row, col) in open
    ensures Progress(n, open, L0, SiteUnions(n, open, L, row, col), Site(row, col),
                     joined + (if IsOpenSite(n, open, Site(row - 1, col)) then {Site(row - 1, col)} else {})
                            + (if IsOpenSite(n, open, Site(row + 1, col)) then {Site(row + 1, col)} else {})
                            + (if IsOpenSite(n, open, Site(row, col - 1)) then {Site(row, col - 1)} else {})
                            + (if IsOpenSite(n, open, Site(row, col + 1)) then {Site(row, col + 1)} else {}))
  {
    ProgressUnionIfOpen(n, open, L0, L, row, col, joined, row - 1, col);
    ProgressDownLeftRight(n, open, L0, UnionIfOpen(n, open, L, row, col, row - 1, col), row, col,
                          joined + (if IsOpenSite(n, open, Site(row - 1, col)) then {Site(row - 1, col)} else {}));
  }

  /** The union with the virtual top, made when the new site is in the
    * first row, keeps Progress. */
  lemma ProgressTop(n: int, open: set<(int, int)>, L0: seq<int>, row: int, col: int)
    requires Progress(n, open, L0, L0, Site(row, col), {}) && (row, col) in open
    ensures Progress(n, open, L0, if row == 1 then Merge(L0, SiteID(n, row, col), Top(n)) else L0,
                     Site(row, col), if row == 1 then {VirtualTop} else {})
  {
    if row == 1 {
      ProgressStep(n, open, L0, L0, Site(row, col), {}, VirtualTop);
      assert {} + {VirtualTop} == {VirtualTop};
    }
  }

  /** The unions of open keep Progress and join the new site to each of
    * its Neighbours. */
  lemma NeighbourProgress(n: int, open0: set<(int, int)>, L0: seq<int>, row: int, col: int)
    requires Inv(n, open0, L0) && !IndexOutOfBounds(n, row) && !IndexOutOfBounds(n, col)
    ensures Progress(n, open0 + {(row, col)}, L0, NeighbourUnions(n, open0 + {(row, col)}, L0, row, col),
                     Site(row, col), Neighbours(n, open0 + {(row, col)}, row, col))
  {
    var open := open0 + {(row, col)};
    ProgressStart(n, open0, open, L0, Site(row, col));
    ProgressTop(n, open, L0, row, col);
    ProgressNeighbours(n, open, L0, if row == 1 then Merge(L0, SiteID(n, row, col), Top(n)) else L0, row, col,
                       if row == 1 then {VirtualTop} else {});
  }

  /** What the unions of open achieve: starting from a labelling that keeps
    * Inv, every edge of the grid with (row, col) opened is joined, nothing
    * is joined that water could not cross, and either the new site is joined
    * to the virtual top or the top's component is unchanged. */
  lemma NeighbourUnionsInv(n: int, open0: set<(int, int)>, L0: seq<int>, row: int, col: int)
    requires Inv(n, open0, L0) && !IndexOutOfBounds(n, row) && !IndexOutOfBounds(n, col)
    ensures AfterUnions(n, open0 + {(row, col)}, L0, NeighbourUnions(n, open0 + {(row, col)}, L0, row, col),
                        SiteID(n, row, col))
  {
    var open := open0 + {(row, col)};
    var M := NeighbourUnions(n, open, L0, row, col);
    NeighbourProgress(n, open0, L0, row, col);
    forall v | Edge(n, open, Site(row, col), v) ensures v in Neighbours(n, open, row, col) {
      EdgesAtSite(n, open, row, col, v);
    }
    NeighboursDone(n, open0, open, L0, M, Site(row, col), Neighbours(n, open, row, col));
  }

  /** Joining the virtual bottom to a bottom-row site that is already joined
    * to the virtual top keeps every invariant and joins the virtual sites. */
  lemma JoinBottom(n: int, open: set<(int, int)>, L: seq<int>, b: int)
    requires n >= 1 && |L| == n * n + 2 && 0 <= b < n * n
    requires Sound(n, open, L) && BottomJoinsTop(n, L) && SameIn(L, b, Top(n))
    ensures Sound(n, open, Merge(L, b, Bottom(n))) && BottomJoinsTop(n, Merge(L, b, Bottom(n)))
    ensures Refines(L, Merge(L, b, Bottom(n))) && SameIn(Merge(L, b, Bottom(n)), Top(n), Bottom(n))
  {
    var M := Merge(L, b, Bottom(n));
    MergeRefines(L, b, Bottom(n));
    forall x, y | InGrid(n, x) && InGrid(n, y) && SameIn(M, Id(n, x), Id(n, y))
      ensures Connects(n, open, x, y)
    {
      MergeSame(L, b, Bottom(n), Id(n, x), Id(n, y));
      assert SameIn(L, Id(n, x), Id(n, y));
    }
    forall x | 0 <= x <= n * n && SameIn(M, x, Bottom(n)) ensures SameIn(M, x, Top(n)) {
      MergeSame(L, b, Bottom(n), x, Bottom(n));
    }
    MergeSame(L, b, Bottom(n), Top(n), Bottom(n));
  }

  lemma ClosedRefines(n: int, open: set<(int, int)>, L: seq<int>, L': seq<int>)
    requires Closed(n, open, L) && Refines(L, L')
    ensures Closed(n, open, L')
  {
  }

  /** BottomRowIff depends only on the component of the virtual top. */
  lemma BottomRowIffKept(n: int, L0: seq<int>, L: seq<int>)
    requires n >= 1 && BottomRowIff(n, L0)
    requires forall x :: SameIn(L, x, Top(n)) <==> SameIn(L0, x, Top(n))
    ensures BottomRowIff(n, L)
  {
    assert SameIn(L, Bottom(n), Top(n)) <==> SameIn(L0, Bottom(n), Top(n));
  }

  /** Once the virtual sites are joined, further unions keep BottomRowIff. */
  lemma BottomRowIffPercolated(n: int, L0: seq<int>, L: seq<int>)
    requires n >= 1 && BottomRowIff(n, L0) && SameIn(L0, Top(n), Bottom(n)) && Refines(L0, L)
    ensures BottomRowIff(n, L) && SameIn(L, Top(n), Bottom(n))
  {
    var col :| !IndexOutOfBounds(n, col) && SameIn(L0, SiteID(n, n, col), Top(n));
    assert SameIn(L, SiteID(n, n, col), Top(n));
  }
}
