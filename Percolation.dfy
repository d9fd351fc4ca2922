/**
 * The percolation grid: an n-by-n bitmap of open (1) and blocked (0)
 * sites, a running count of open sites, a union-find over the n*n sites
 * plus a virtual top (n*n) and a virtual bottom (n*n+1), and a latch that
 * records that the system percolates.
 *
 * Coordinates are 1-based; a coordinate outside [1, n] is an error and
 * leaves the grid untouched.  The ghost field `openCells` is the set of
 * coordinates of the open sites; Valid() ties it to the bitmap and the
 * union-find to the lattice graph (GridInvariant.Inv).
 */
module Percolation {
  import opened UnionFind
  import opened Lattice
  import opened GridInvariant

  /** The two exceptions the grid throws. */
  datatype Error = IllegalArgument | IndexOutOfRange

  datatype Result<T> = Ok(value: T) | Err(error: Error)

  datatype Outcome = Pass | Fail(error: Error)

  class Percolation {
    /** The bitmap, indexed [row - 1, col - 1]. */
    const grid: array2<int>
    var numOpenSites: int
    const virtualTopID: int
    const virtualBottomID: int
    const unionFind: UF
    /** The latch (the source's field `percolates`). */
    var percolated: bool
    /** Coordinates (row, col) of the open sites. */
    ghost var openCells: set<(int, int)>

    /** The width and height n of the grid.  Once the shape is fixed the
      * bitmap is n by n with n >= 1 and the union-find has n*n + 2 elements. */
    function Size(): (n: int)
      ensures Shaped() ==> n >= 1 && n == grid.Length1 && unionFind.comp.Length == n * n + 2
    {
      grid.Length0
    }

    /** The shape fixed at construction. */
    ghost predicate Shaped()
    {
      grid.Length0 == grid.Length1 >= 1
      && virtualTopID == Top(grid.Length0) && virtualBottomID == Bottom(grid.Length0)
      && unionFind.comp.Length == grid.Length0 * grid.Length0 + 2
    }

    /** The bitmap holds only 0 and 1, and its open cells are those in
      * openCells. */
    ghost predicate GridMatches()
      reads this`openCells, grid
      requires Shaped()
    {
      var n := grid.Length0;
      InGridCells(n, openCells)
      && forall r, c :: 0 <= r < n && 0 <= c < n ==>
           (grid[r, c] == 0 || grid[r, c] == 1) && (grid[r, c] == 1 <==> (r + 1, c + 1) in openCells)
    }

    ghost predicate Valid()
      reads this, grid, unionFind.comp
    {
      Shaped() && GridMatches() && numOpenSites == |openCells|
      && Inv(Size(), openCells, unionFind.Labels())
      && percolated == SameIn(unionFind.Labels(), virtualTopID, virtualBottomID)
    }

    /** An n-by-n grid with every site blocked. */
    constructor (n: int)
      requires n > 0
      ensures Valid() && fresh(grid) && fresh(unionFind) && fresh(unionFind.comp)
      ensures Size() == n && virtualTopID == n * n && virtualBottomID == n * n + 1
      ensures openCells == {} && numOpenSites == 0 && !percolated
      ensures forall r, c :: 0 <= r < n && 0 <= c < n ==> grid[r, c] == 0
    {
      numOpenSites := 0;
      grid := new int[n, n]((_, _) => 0);
      unionFind := new UF(n * n + 2);
      virtualTopID := n * n;
      virtualBottomID := n * n + 1;
      percolated := false;
      openCells := {};
      new;
      InitInv(n, unionFind.Labels());
    }

    /** Construction with its argument check: n <= 0 is rejected. */
    static method Create(n: int) returns (r: Result<Percolation>)
      ensures r.Err? <==> n <= 0
      ensures r.Err? ==> r.error == IllegalArgument
      ensures r.Ok? ==> fresh(r.value) && fresh(r.value.grid) && fresh(r.value.unionFind) && fresh(r.value.unionFind.comp)
      ensures r.Ok? ==> r.value.Valid() && r.value.Size() == n && r.value.openCells == {}
                        && r.value.numOpenSites == 0 && !r.value.percolated
    {
      if n <= 0 {
        return Err(IllegalArgument);
      }
      var p := new Percolation(n);
      return Ok(p);
    }

    /** Opens site (row, col) if it is not open already. */
    method Open(row: int, col: int) returns (r: Outcome)
      requires Valid()
      modifies this, grid, unionFind.comp
      ensures Valid()
      ensures r.Fail? <==> IndexOutOfBounds(Size(), row) || IndexOutOfBounds(Size(), col)
      ensures r.Fail? ==> r.error == IndexOutOfRange && unchanged(grid) && openCells == old(openCells)
      ensures r.Pass? ==> openCells == old(openCells) + {(row, col)} && grid[row - 1, col - 1] == 1
      ensures forall i, j :: 0 <= i < Size() && 0 <= j < Size() && (i, j) != (row - 1, col - 1) ==>
                grid[i, j] == old(grid[i, j])
      ensures numOpenSites == old(numOpenSites) + if r.Pass? && (row, col) !in old(openCells) then 1 else 0
      ensures openCells == old(openCells) ==>
                numOpenSites == old(numOpenSites) && percolated == old(percolated)
                && unionFind.Labels() == old(unionFind.Labels())
      ensures Refines(old(unionFind.Labels()), unionFind.Labels())
      ensures old(percolated) ==> percolated
      ensures r.Pass? ==> forall v :: Edge(Size(), openCells, Site(row, col), v) ==>
                SameIn(unionFind.Labels(), SiteID(Size(), row, col), Id(Size(), v))
    {
      var n := grid.Length0;
      if IndexOutOfBounds(n, row) || IndexOutOfBounds(n, col) {
        return Fail(IndexOutOfRange);
      }
      if grid[row - 1, col - 1] != 0 {
        return Pass;
      }
      OpenBlocked(row, col);
      r := Pass;
    }

    /** The main path of open, for a site in the grid that is still blocked. */
    method OpenBlocked(row: int, col: int)
      requires Valid() && !IndexOutOfBounds(Size(), row) && !IndexOutOfBounds(Size(), col)
      requires grid[row - 1, col - 1] == 0
      modifies this, grid, unionFind.comp
      ensures Valid()
      ensures (row, col) !in old(openCells) && openCells == old(openCells) + {(row, col)}
      ensures numOpenSites == old(numOpenSites) + 1
      ensures grid[row - 1, col - 1] == 1
      ensures forall i, j :: 0 <= i < Size() && 0 <= j < Size() && (i, j) != (row - 1, col - 1) ==>
                grid[i, j] == old(grid[i, j])
      ensures Refines(old(unionFind.Labels()), unionFind.Labels())
      ensures old(percolated) ==> percolated
      ensures forall v :: Edge(Size(), openCells, Site(row, col), v) ==>
                SameIn(unionFind.Labels(), SiteID(Size(), row, col), Id(Size(), v))
    {
      var n := grid.Length0;
      ghost var L0, O0 := unionFind.Labels(), openCells;

      // open it
      MarkOpen(row, col);

      // connect to the virtual top and to the open neighbours
      ConnectNeighbours(row, col, O0);

      // if this site is full, join the first full bottom-row site to the
      // virtual bottom
      JoinBottomIfFull(row, col, L0);

      if !percolated {
        var p := Percolates();
        if p {
          percolated := true;
        }
      }
    }

    /** Marks the blocked site (row, col) open and counts it. */
    method MarkOpen(row: int, col: int)
      requires Shaped() && GridMatches() && numOpenSites == |openCells|
      requires !IndexOutOfBounds(Size(), row) && !IndexOutOfBounds(Size(), col)
      requires grid[row - 1, col - 1] == 0
      modifies this, grid
      ensures GridMatches() && numOpenSites == |openCells|
      ensures (row, col) !in old(openCells) && openCells == old(openCells) + {(row, col)}
      ensures numOpenSites == old(numOpenSites) + 1 && percolated == old(percolated)
      ensures grid[row - 1, col - 1] == 1
      ensures forall i, j :: 0 <= i < Size() && 0 <= j < Size() && (i, j) != (row - 1, col - 1) ==>
                grid[i, j] == old(grid[i, j])
    {
      grid[row - 1, col - 1] := 1;
      numOpenSites := numOpenSites + 1;
      openCells := openCells + {(row, col)};
    }

    /** The unions of open for a newly opened site (row, col): with the
      * virtual top when the site is in the first row, and with each open
      * neighbour. */
    method ConnectNeighbours(row: int, col: int, ghost open0: set<(int, int)>)
      requires Shaped() && GridMatches() && !IndexOutOfBounds(Size(), row) && !IndexOutOfBounds(Size(), col)
      requires Inv(Size(), open0, unionFind.Labels()) && openCells == open0 + {(row, col)}
      modifies unionFind.comp
      ensures AfterUnions(Size(), openCells, old(unionFind.Labels()), unionFind.Labels(), SiteID(Size(), row, col))
    {
      var n := grid.Length0;
      ghost var L0 := unionFind.Labels();

      // connect to the virtual top if in the first row
      if row == 1 {
        unionFind.Union(SiteID(n, row, col), virtualTopID);
      }
      ghost var L1 := unionFind.Labels();

      // connect to the open neighbours
      ConnectIfOpen(row, col, row - 1, col);
      ghost var L2 := unionFind.Labels();
      ConnectIfOpen(row, col, row + 1, col);
      ghost var L3 := unionFind.Labels();
      ConnectIfOpen(row, col, row, col - 1);
      ghost var L4 := unionFind.Labels();
      ConnectIfOpen(row, col, row, col + 1);
      NeighbourUnionsIs(n, openCells, L0, L1, L2, L3, L4, unionFind.Labels(), row, col);
      NeighbourUnionsInv(n, open0, L0, row, col);
    }

    /** Joins site (row, col) to its neighbour (r, c) when (r, c) lies in
      * the grid and is open.  In open the bounds test on the neighbour is
      * written as the comparison of row or col with 1 or with n. */
    method ConnectIfOpen(row: int, col: int, r: int, c: int)
      requires Shaped() && GridMatches() && !IndexOutOfBounds(Size(), row) && !IndexOutOfBounds(Size(), col)
      requires Adjacent(Site(row, col), Site(r, c))
      modifies unionFind.comp
      ensures unionFind.Labels() == UnionIfOpen(Size(), openCells, old(unionFind.Labels()), row, col, r, c)
    {
      var n := grid.Length0;
      if !IndexOutOfBounds(n, r) && !IndexOutOfBounds(n, c) && IsOpen(r, c) == Ok(true) {
        unionFind.Union(SiteID(n, row, col), SiteID(n, r, c));
      }
    }

    /** If the system does not percolate yet and site (row, col) is full,
      * joins the first bottom-row site that is full to the virtual bottom. */
    method JoinBottomIfFull(row: int, col: int, ghost L0: seq<int>)
      requires Shaped() && !IndexOutOfBounds(Size(), row) && !IndexOutOfBounds(Size(), col)
      requires AfterUnions(Size(), openCells, L0, unionFind.Labels(), SiteID(Size(), row, col))
      requires percolated == SameIn(L0, virtualTopID, virtualBottomID)
      modifies unionFind.comp
      ensures Inv(Size(), openCells, unionFind.Labels())
      ensures percolated ==> SameIn(unionFind.Labels(), virtualTopID, virtualBottomID)
      ensures Refines(L0, unionFind.Labels())
      ensures unionFind.Labels() == old(unionFind.Labels())
              || exists c :: FirstFullBottom(Size(), old(unionFind.Labels()), c)
                             && unionFind.Labels() == Merge(old(unionFind.Labels()), SiteID(Size(), Size(), c), Bottom(Size()))
    {
      var n := grid.Length0;
      ghost var L := unionFind.Labels();
      if !percolated {
        var full := IsFull(row, col);
        if full == Ok(true) {
          var i := 1;
          while i <= n
            invariant 1 <= i <= n + 1
            invariant unionFind.Labels() == L
            invariant forall j :: 1 <= j < i ==> !SameIn(L, SiteID(n, n, j), Top(n))
          {
            var connected := unionFind.Connected(SiteID(n, n, i), virtualTopID);
            if connected {
              JoinBottom(n, openCells, L, SiteID(n, n, i));
              unionFind.Union(SiteID(n, n, i), virtualBottomID);
              ClosedRefines(n, openCells, L, unionFind.Labels());
              assert FirstFullBottom(n, L, i);
              assert SameIn(unionFind.Labels(), SiteID(n, n, i), Top(n));
              RefinesTransitive(L0, L, unionFind.Labels());
              return;
            }
            i := i + 1;
          }
        } else {
          BottomRowIffKept(n, L0, L);
        }
      } else {
        BottomRowIffPercolated(n, L0, L);
      }
    }

    /** Whether site (row, col) is open. */
    function IsOpen(row: int, col: int): (r: Result<bool>)
      reads this`openCells, grid
      requires Shaped()
      ensures r.Err? <==> IndexOutOfBounds(Size(), row) || IndexOutOfBounds(Size(), col)
      ensures r.Err? ==> r.error == IndexOutOfRange
      ensures r.Ok? ==> (r.value <==> grid[row - 1, col - 1] == 1)
      ensures r.Ok? && GridMatches() ==> (r.value <==> (row, col) in openCells)
    {
      if IndexOutOfBounds(grid.Length0, row) || IndexOutOfBounds(grid.Length0, col) then
        Err(IndexOutOfRange)
      else
        Ok(grid[row - 1, col - 1] == 1)
    }

    /** Whether site (row, col) is full, that is joined to the virtual top. */
    method IsFull(row: int, col: int) returns (r: Result<bool>)
      requires Shaped()
      ensures r.Err? <==> IndexOutOfBounds(Size(), row) || IndexOutOfBounds(Size(), col)
      ensures r.Err? ==> r.error == IndexOutOfRange
      ensures r.Ok? ==> (r.value <==> SameIn(unionFind.Labels(), virtualTopID, SiteID(Size(), row, col)))
      ensures r.Ok? && Valid() ==> (r.value <==> Full(Size(), openCells, row, col))
    {
      var n := grid.Length0;
      if IndexOutOfBounds(n, row) || IndexOutOfBounds(n, col) {
        return Err(IndexOutOfRange);
      }
      var connected := unionFind.Connected(virtualTopID, SiteID(n, row, col));
      if Valid() {
        FullIff(n, openCells, unionFind.Labels(), row, col);
      }
      return Ok(connected);
    }

    /** The number of open sites. */
    function NumberOfOpenSites(): (k: int)
      reads this, grid, unionFind.comp
      requires Valid()
      ensures k == |openCells| && 0 <= k <= Size() * Size()
    {
      CellsBound(Size(), openCells);
      numOpenSites
    }

    /** Whether the virtual top and the virtual bottom are joined. */
    method Percolates() returns (b: bool)
      requires Shaped()
      ensures b <==> SameIn(unionFind.Labels(), virtualTopID, virtualBottomID)
      ensures Valid() ==> b == percolated && (b <==> Percolating(Size(), openCells))
    {
      b := unionFind.Connected(virtualTopID, virtualBottomID);
      if Valid() {
        PercolatesIff(Size(), openCells, unionFind.Labels());
      }
    }
  }
}
