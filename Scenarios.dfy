/**
 * Small grids worked through end to end: the value-level facts about the
 * lattice graph, and the same runs made on the Percolation class, whose
 * contracts carry those facts to the results of isFull and percolates.
 */
module Scenarios {
  import opened Lattice
  import opened Percolation

  /** On a 1-by-1 grid the single open site is full, so the grid
    * percolates. */
  lemma SingleSitePercolates()
    ensures Full(1, {(1, 1)}, 1, 1) && Percolating(1, {(1, 1)})
  {
    ConnectsEdge(1, {(1, 1)}, VirtualTop, Site(1, 1));
  }

  /** On a 2-by-2 grid an open column carries water to the bottom. */
  lemma ColumnPercolates()
    ensures Percolating(2, {(1, 1), (2, 1)})
  {
    var open := {(1, 1), (2, 1)};
    ConnectsEdge(2, open, VirtualTop, Site(1, 1));
    ConnectsEdge(2, open, Site(1, 1), Site(2, 1));
    ConnectsTransitive(2, open, VirtualTop, Site(1, 1), Site(2, 1));
    assert Full(2, open, 2, 1);
  }

  /** On a 2-by-2 grid two diagonal open sites are not connected: water
    * stays in the top-left site. */
  lemma DiagonalDoesNotPercolate()
    ensures !Percolating(2, {(1, 1), (2, 2)})
  {
    var open := {(1, 1), (2, 2)};
    var R := {VirtualTop, Site(1, 1)};
    assert EdgeClosed(2, open, R);
    forall col | !IndexOutOfBounds(2, col) ensures !Full(2, open, 2, col) {
      if Full(2, open, 2, col) {
        ConnectsStaysIn(2, open, R, VirtualTop, Site(2, col));
      }
    }
  }

  /** On a 3-by-3 grid with the left column open, the open corner (3, 3)
    * has no path to the top, so it is not full although the grid
    * percolates. */
  lemma CornerNotFull()
    ensures Percolating(3, {(1, 1), (2, 1), (3, 1), (3, 3)})
    ensures !Full(3, {(1, 1), (2, 1), (3, 1), (3, 3)}, 3, 3)
  {
    var open := {(1, 1), (2, 1), (3, 1), (3, 3)};
    ConnectsEdge(3, open, VirtualTop, Site(1, 1));
    ConnectsEdge(3, open, Site(1, 1), Site(2, 1));
    ConnectsEdge(3, open, Site(2, 1), Site(3, 1));
    ConnectsTransitive(3, open, VirtualTop, Site(1, 1), Site(2, 1));
    ConnectsTransitive(3, open, VirtualTop, Site(2, 1), Site(3, 1));
    assert Full(3, open, 3, 1);
    var R := {VirtualTop, Site(1, 1), Site(2, 1), Site(3, 1)};
    assert EdgeClosed(3, open, R);
    if Full(3, open, 3, 3) {
      ConnectsStaysIn(3, open, R, VirtualTop, Site(3, 3));
    }
  }

  /** n = 1: opening (1, 1) makes it full and the system percolates. */
  method SingleSite() returns (full: Result<bool>, percolates: bool)
    ensures full == Ok(true) && percolates
  {
    var p := new Percolation(1);
    var r := p.Open(1, 1);
    assert r == Pass;
    full := p.IsFull(1, 1);
    percolates := p.Percolates();
    SingleSitePercolates();
  }

  /** The cells listed in s. */
  function Elements(s: seq<(int, int)>): set<(int, int)>
  {
    if s == [] then {} else Elements(s[..|s| - 1]) + {s[|s| - 1]}
  }

  lemma ElementsOfTwo(a: (int, int), b: (int, int))
    ensures {} + Elements([a, b]) == {a, b}
  {
    assert [a, b][..1] == [a];
    assert [a][..0] == [];
    assert Elements([a]) == {a};
    assert Elements([a, b]) == {a} + {b};
  }

  lemma ElementsOfFour(a: (int, int), b: (int, int), c: (int, int), d: (int, int))
    ensures {} + Elements([a, b, c, d]) == {a, b, c, d}
  {
    assert [a, b, c, d][..3] == [a, b, c];
    assert [a, b, c][..2] == [a, b];
    ElementsOfTwo(a, b);
  }

  /** Opens the sites of cells one after the other. */
  method OpenAll(p: Percolation, cells: seq<(int, int)>)
    requires p.Valid()
    requires forall i :: 0 <= i < |cells| ==>
               !IndexOutOfBounds(p.Size(), cells[i].0) && !IndexOutOfBounds(p.Size(), cells[i].1)
    modifies p, p.grid, p.unionFind.comp
    ensures p.Valid() && p.openCells == old(p.openCells) + Elements(cells)
  {
    for k := 0 to |cells|
      invariant p.Valid() && p.openCells == old(p.openCells) + Elements(cells[..k])
    {
      var _ := p.Open(cells[k].0, cells[k].1);
      assert cells[..k + 1][..k] == cells[..k];
    }
    assert cells[..|cells|] == cells;
  }

  /** n = 2: the open column (1, 1), (2, 1) percolates. */
  method Column() returns (percolates: bool)
    ensures percolates
  {
    var p := new Percolation(2);
    OpenAll(p, [(1, 1), (2, 1)]);
    ElementsOfTwo((1, 1), (2, 1));
    percolates := p.Percolates();
    ColumnPercolates();
  }

  /** n = 2: the diagonal (1, 1), (2, 2) does not percolate. */
  method Diagonal() returns (percolates: bool)
    ensures !percolates
  {
    var p := new Percolation(2);
    OpenAll(p, [(1, 1), (2, 2)]);
    ElementsOfTwo((1, 1), (2, 2));
    percolates := p.Percolates();
    DiagonalDoesNotPercolate();
  }

  /** n = 3: with the left column open the system percolates, and the
    * corner (3, 3) opened afterwards is not reported full: the virtual
    * bottom was joined to (3, 1) only, so no backwash reaches (3, 3). */
  method NoBackwash() returns (percolates: bool, corner: Result<bool>)
    ensures percolates && corner == Ok(false)
  {
    var p := new Percolation(3);
    OpenAll(p, [(1, 1), (2, 1), (3, 1), (3, 3)]);
    ElementsOfFour((1, 1), (2, 1), (3, 1), (3, 3));
    percolates := p.Percolates();
    corner := p.IsFull(3, 3);
    CornerNotFull();
  }
}
