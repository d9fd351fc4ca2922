# Percolation, modelled in Dafny

A model of `Percolation.java`, the n-by-n percolation grid of the
ryanwc/Percolation repository. Sites are either blocked or open. A site is
*full* when a path of open sites, moving up, down, left or right, links it
to the top row. The system *percolates* when some site of the bottom row is
full.

The Java class keeps the following state, and the class
`Percolation.Percolation` has the same fields:
- an `int[][]` bitmap (`grid`);
- a counter of open sites;
- a `WeightedQuickUnionUF` over n*n + 2 elements: the sites in row-major
  order, then a virtual top (n*n) and a virtual bottom (n*n + 1);
- a boolean latch, named `percolated` here.

Its operations are modelled as follows:
- the constructor is a Dafny constructor, wrapped by the static method
  `Create` for the argument check;
- `open` is a method whose `modifies` clause names the object, the bitmap
  and the union-find's label array;
- `isOpen` and `numberOfOpenSites` are functions with `reads` clauses;
- `isFull` and `percolates` are methods that change nothing, because they
  query the union-find through its `Connected` method.

Files:

- `UnionFind.dfy`: the union-find the grid uses. The class `UF` keeps one
  component label per element in an array; `Union` relabels a component
  and `Connected` compares labels. Both are specified against pure
  functions on the label sequence: `Merge` and `SameIn`. Lemmas state what
  a union does to connectivity.
- `Lattice.dfy`: the parts shared by every open:
  - coordinates and ids: `getSiteID`, the two virtual ids and
    `indexOutOfBounds`;
  - the lattice graph over open sites and the virtual top. A site is full
    when it is `Connects`-reachable from the virtual top; `Percolating`
    holds when some bottom-row site is full;
  - lemmas about paths in that graph.
- `GridInvariant.dfy`: the invariant `Inv` that ties the union-find
  labelling to the graph.
  - `Sound`: every connection in the union-find is a lattice path, so
    nothing is joined that water could not cross.
  - `Closed`: every edge of the graph is joined.
  - `BottomJoinsTop`: the virtual bottom is only ever in the top's
    component.
  - `BottomRowIff`: the two virtual sites are joined exactly when a
    bottom-row site is full.
  - The remaining lemmas are the steps of `open` on values.
- `Percolation.dfy`: the class.
  - `Valid()` ties the bitmap, the counter, a ghost set `openCells` of
    open coordinates, the union-find and the latch together.
  - `Open` follows the Java method statement by statement. Its sections are
    in helper methods that keep the code's order: `OpenBlocked`,
    `MarkOpen`, `ConnectNeighbours`, `ConnectIfOpen` and
    `JoinBottomIfFull`.
- `Scenarios.dfy`: small grids opened through the class API, with the
  graph facts that determine the answers of `isFull` and `percolates`.

Exceptions are modelled as values:
- the constructor's `IllegalArgumentException` is `Create` returning
  `Err(IllegalArgument)`;
- the `IndexOutOfBoundsException` of `open`, `isOpen` and `isFull` is
  `Fail(IndexOutOfRange)` or `Err(IndexOutOfRange)`. On that path the
  state is left as it was, because Java throws before any write.

A common description of this design warns of *backwash*. Once the system
percolates, sites linked to the bottom row only through the virtual bottom
would be reported full. This code does not behave that way: `open` joins
the virtual bottom to one bottom-row site only, and only one that is
already joined to the virtual top (Percolation.java:81-89). So the
component of the virtual top never grows through the virtual bottom.
- `GridInvariant.Sound` holds in every reachable state.
- `Percolation.Percolation.IsFull` states that `isFull` is exactly `Full`.
- `Scenarios.NoBackwash` shows the 3-by-3 case: with the left column open
  and then (3, 3) opened, `isFull(3, 3)` is false.

## Model

| member | source | states |
|---|---|---|
| UnionFind.Merge | Percolation.java:65 | after a union the two elements are in the same component, and the number of elements is unchanged |
| UnionFind.MergeSame | Percolation.java:65-79 | two elements are connected after a union iff they were connected before, or one was with a and the other with b |
| UnionFind.MergeRefines | Percolation.java:65-79 | a union never separates elements that were connected |
| UnionFind.MergeKeepsOtherClass | Percolation.java:82-88 | a union that does not join a to c leaves the component of c exactly as it was |
| UnionFind.UF.constructor | Percolation.java:38 | N elements, each alone in its own component |
| UnionFind.UF.Union | Percolation.java:65 | the new labelling is the old one with the components of a and b merged |
| UnionFind.UF.Connected | Percolation.java:84 | returns true iff a and b are in the same component |
| Lattice.IndexOutOfBounds | Percolation.java:141-143 | an index is out of bounds iff index - 1 is not a legal 0-based index of an n-long row; an index in bounds exists only when n >= 1 |
| Lattice.Top | Percolation.java:39 | the virtual top id is above the id of every in-grid site |
| Lattice.Bottom | Percolation.java:40 | the virtual bottom id is the one right after the virtual top, and the last of the n*n + 2 ids |
| Lattice.SiteID | Percolation.java:95-97 | the id of an in-grid site lies in [0, n*n) |
| Lattice.SiteIDInjective | Percolation.java:39-40 | distinct coordinates get distinct ids, and no site id is the virtual top n*n or the virtual bottom n*n+1 |
| Lattice.SiteIDCoordinates | Percolation.java:95-97 | the row and column recovered from SiteID(row, col) are row and col |
| Lattice.CoordinatesSiteID | Percolation.java:95-97 | every id in [0, n*n) is the SiteID of its own row and column, so ids and sites correspond one to one |
| Lattice.CellsBound | Percolation.java:127-129 | a set of in-grid cells has at most n*n elements |
| Lattice.EdgesAtSite | Percolation.java:63-79 | an open site has an edge to v iff v is the virtual top (row 1) or an open in-grid neighbour above, below, left or right; there is none to a diagonal site |
| Lattice.EdgeSymmetric | Percolation.java:131-135 | the lattice graph is undirected |
| Lattice.ConnectsTransitive | Percolation.java:131-135 | two paths that meet make a path |
| Lattice.ConnectsSymmetric | Percolation.java:131-135 | a path can be walked backwards |
| Lattice.ConnectsMonotone | Percolation.java:131-135 | opening more sites keeps every path, so being full and percolating are monotone in the open set |
| Lattice.ConnectsStaysIn | Percolation.java:131-135 | nothing outside a set that no edge leaves is reachable from inside it |
| GridInvariant.InitInv | Percolation.java:32-42 | the freshly built union-find satisfies the invariant on an all-blocked grid, and the two virtual sites are apart |
| GridInvariant.ClosedPath | Percolation.java:119-125 | when every edge is joined, the two ends of any path are joined |
| GridInvariant.FullIff | Percolation.java:119-125 | under the invariant, a site is joined to the virtual top iff a path of open sites leads to it from the top row |
| GridInvariant.PercolatesIff | Percolation.java:131-139 | under the invariant, the virtual sites are joined iff some bottom-row site is full |
| GridInvariant.NeighbourProgress | Percolation.java:63-79 | the unions of open join the new site to the virtual top (row 1) and to each open neighbour, and join nothing that has no path |
| GridInvariant.NeighbourUnionsInv | Percolation.java:63-79 | after those unions every edge is joined, every join is a path, and either the new site is full or the top's component is unchanged |
| GridInvariant.NeighbourUnionsIs | Percolation.java:63-79 | proof helper: the five conditional unions done one after the other compose to NeighbourUnions, the function the invariant lemmas are stated over |
| GridInvariant.JoinBottom | Percolation.java:84-85 | joining the virtual bottom to a bottom-row site that is already full keeps the invariant and joins the two virtual sites |
| GridInvariant.BottomRowIffKept | Percolation.java:82-89 | when the scan joins nothing, the virtual sites are joined iff some bottom-row site is full |
| GridInvariant.BottomRowIffPercolated | Percolation.java:82 | once the system percolates, later unions keep it percolating |
| Percolation.Percolation.constructor | Percolation.java:32-42 | n-by-n grid with every site blocked, count 0, not percolating, virtual top n*n and bottom n*n+1, invariant established |
| Percolation.Percolation.Size | Percolation.java:37 | the grid's width n; once the shape is fixed the bitmap is n by n with n >= 1 and the union-find has n*n + 2 elements |
| Percolation.Percolation.Create | Percolation.java:34 | fails with IllegalArgument iff n <= 0, otherwise returns a valid empty grid of size n |
| Percolation.Percolation.Open | Percolation.java:50-93 | out-of-range coordinates fail and change nothing; opening an open site changes nothing; otherwise exactly that cell becomes open, the count grows by one, no connection is lost, and the site is joined to each vertex it has an edge to; the latch never resets; the invariant is kept |
| Percolation.Percolation.OpenBlocked | Percolation.java:59-92 | opening a blocked in-grid site makes exactly that cell open, adds 1 to the count, keeps every connection and joins the site to every vertex it has an edge to |
| Percolation.Percolation.MarkOpen | Percolation.java:59-61 | the cell becomes 1 and is added to the open set, the count grows by one, and no other cell changes |
| Percolation.Percolation.ConnectNeighbours | Percolation.java:63-79 | after the unions with the virtual top and the open neighbours, every edge is joined, every join is a path, and the virtual sites are joined only if they were before |
| Percolation.Percolation.ConnectIfOpen | Percolation.java:68-79 | the labelling is merged with the neighbour's component exactly when the neighbour is in the grid and open |
| Percolation.Percolation.JoinBottomIfFull | Percolation.java:81-89 | the virtual bottom is joined at most once, only to the first bottom-row site that is already full; the invariant is restored and the latch's promise holds |
| Percolation.Percolation.IsOpen | Percolation.java:105-111 | fails iff a coordinate is out of range; otherwise true iff the cell holds 1, equivalently iff the site is in the open set |
| Percolation.Percolation.IsFull | Percolation.java:119-125 | fails iff a coordinate is out of range; otherwise true iff the site is joined to the virtual top, which under the invariant is iff it is full |
| Percolation.Percolation.NumberOfOpenSites | Percolation.java:127-129 | the count equals the number of open sites and is at most n*n |
| Percolation.Percolation.Percolates | Percolation.java:137-139 | true iff the virtual sites are joined; under the invariant this equals the latch and holds iff some bottom-row site is full |
| Scenarios.SingleSitePercolates | Percolation.java:50-93 | on a 1-by-1 grid the open site is full and the grid percolates |
| Scenarios.ColumnPercolates | Percolation.java:131-139 | on a 2-by-2 grid the open column (1,1), (2,1) percolates |
| Scenarios.DiagonalDoesNotPercolate | Percolation.java:131-135 | on a 2-by-2 grid the diagonal (1,1), (2,2) does not percolate |
| Scenarios.CornerNotFull | Percolation.java:81-89 | on a 3-by-3 grid with the left column and (3,3) open, the grid percolates but (3,3) is not full |
| Scenarios.SingleSite | Percolation.java:91-92 | n = 1: after open(1,1), isFull(1,1) and percolates() are both true |
| Scenarios.OpenAll | Percolation.java:50-93 | opening a list of in-grid sites adds exactly those sites to the open set and keeps the invariant |
| Scenarios.Column | Percolation.java:91-92 | n = 2: after opening (1,1) and (2,1), percolates() is true |
| Scenarios.Diagonal | Percolation.java:137-139 | n = 2: after opening (1,1) and (2,2), percolates() is false |
| Scenarios.NoBackwash | Percolation.java:81-89 | n = 3: after opening the left column and then (3,3), percolates() is true and isFull(3,3) is false |

## Left out

- `PercolationStats.java` is not part of this model. That Monte Carlo driver uses randomness and floating point.
- The internals of the library class `WeightedQuickUnionUF` are not modelled. That covers its parent array, union by size and running time. The model puts a quick-find labelling (`UnionFind.UF`) in its place, with the same `union`/`connected` contract.
- Java `int` arithmetic is not modelled. `n * n + 2` and the id arithmetic of `getSiteID` overflow for n >= 46341. The model uses unbounded integers, so it describes the grid only for sizes where no overflow happens.
- Exceptions are result values, not control transfer. The `IndexOutOfBoundsException` of `isOpen`, when `open` calls it, cannot arise, because `open` checks every neighbour's bounds first.
- `ConnectNeighbours`: the contract states the invariant the unions establish (`AfterUnions`), not the exact resulting labelling. That labelling, `NeighbourUnions`, is proved inside the method body with `NeighbourUnionsIs`; stating it in the contract as well makes the proof of `Open` too costly.
- `Open`: the contract states connectivity through `Refines` and the site's edges. It does not state the exact labelling after the bottom-row scan. `JoinBottomIfFull` states that labelling: unchanged, or merged with the virtual bottom at the first full bottom-row column.
- `openCells` is a ghost mirror of the bitmap, kept so that contracts can speak of the set of open sites. It has no counterpart in the Java fields.
