/**
 * A union-find (dynamic connectivity) structure over the elements [0, N).
 *
 * It stands in for the library class WeightedQuickUnionUF that the grid
 * uses.  Components are recorded as one label per element (quick-find):
 * two elements are connected exactly when they carry the same label, and a
 * union relabels one whole component.  The library's weighting and its
 * running time are not modelled; only its union/connected contract is.
 */
module UnionFind {

  /** x and y are elements of the labelling L and lie in the same component. */
  predicate SameIn(L: seq<int>, x: int, y: int)
  {
    0 <= x < |L| && 0 <= y < |L| && L[x] == L[y]
  }

  /** L with every label `from` replaced by `to`, element by element. */
  ghost function Relabel(L: seq<int>, from: int, to: int): (M: seq<int>)
    ensures |M| == |L|
    decreases |L|
  {
    if L == [] then []
    else Relabel(L[..|L| - 1], from, to) + [if L[|L| - 1] == from then to else L[|L| - 1]]
  }

  /** Element k of a relabelling. */
  lemma {:induction false} RelabelAt(L: seq<int>, from: int, to: int, k: int)
    requires 0 <= k < |L|
    ensures Relabel(L, from, to)[k] == if L[k] == from then to else L[k]
    decreases |L|
  {
    if k < |L| - 1 {
      RelabelAt(L[..|L| - 1], from, to, k);
    }
  }

  /** The labelling after merging the components of a and b: every element
    * labelled like a takes the label of b. */
  ghost function Merge(L: seq<int>, a: int, b: int): (M: seq<int>)
    requires 0 <= a < |L| && 0 <= b < |L|
    ensures |M| == |L|
    ensures SameIn(M, a, b)
  {
    RelabelAt(L, L[a], L[b], a);
    RelabelAt(L, L[a], L[b], b);
    Relabel(L, L[a], L[b])
  }

  /** Every pair connected in L is still connected in L'. */
  ghost predicate Refines(L: seq<int>, L': seq<int>)
  {
    forall x, y :: SameIn(L, x, y) ==> SameIn(L', x, y)
  }

  /** The components of x and y under L: each is the class it was in, or the
    * result of gluing the class of a to the class of b. */
  lemma MergeSame(L: seq<int>, a: int, b: int, x: int, y: int)
    requires 0 <= a < |L| && 0 <= b < |L|
    ensures SameIn(Merge(L, a, b), x, y) <==>
              SameIn(L, x, y)
              || (SameIn(L, x, a) && SameIn(L, y, b))
              || (SameIn(L, x, b) && SameIn(L, y, a))
  {
    RelabelAt(L, L[a], L[b], a);
    RelabelAt(L, L[a], L[b], b);
    if 0 <= x < |L| { RelabelAt(L, L[a], L[b], x); }
    if 0 <= y < |L| { RelabelAt(L, L[a], L[b], y); }
  }

  /** A union never splits a component. */
  lemma MergeRefines(L: seq<int>, a: int, b: int)
    requires 0 <= a < |L| && 0 <= b < |L|
    ensures Refines(L, Merge(L, a, b))
  {
    forall x, y | SameIn(L, x, y) ensures SameIn(Merge(L, a, b), x, y) {
      MergeSame(L, a, b, x, y);
    }
  }

  lemma RefinesTransitive(L: seq<int>, L': seq<int>, L'': seq<int>)
    requires Refines(L, L') && Refines(L', L'')
    ensures Refines(L, L'')
  {
  }

  /** If after the union a is still not connected to c, then the union did
    * not touch the component of c: it is exactly the one it was. */
  lemma MergeKeepsOtherClass(L: seq<int>, a: int, b: int, c: int)
    requires 0 <= a < |L| && 0 <= b < |L| && 0 <= c < |L|
    requires !SameIn(Merge(L, a, b), a, c)
    ensures forall x :: SameIn(Merge(L, a, b), x, c) <==> SameIn(L, x, c)
  {
    forall x ensures SameIn(Merge(L, a, b), x, c) <==> SameIn(L, x, c) {
      MergeSame(L, a, b, x, c);
      MergeSame(L, a, b, a, c);
      MergeRefines(L, a, b);
    }
  }

  class UF {
    /** The component label of each element. */
    const comp: array<int>

    ghost function Labels(): (L: seq<int>)
      reads comp
      ensures |L| == comp.Length
    {
      comp[..]
    }

    /** N singleton components. */
    constructor (n: nat)
      ensures fresh(comp) && comp.Length == n
      ensures forall x, y :: SameIn(Labels(), x, y) <==> 0 <= x < n && x == y
    {
      comp := new int[n](i => i);
    }

    /** Merges the components containing a and b. */
    method Union(a: int, b: int)
      requires 0 <= a < comp.Length && 0 <= b < comp.Length
      modifies comp
      ensures Labels() == Merge(old(Labels()), a, b)
    {
      var from, to := comp[a], comp[b];
      for i := 0 to comp.Length
        invariant forall k :: 0 <= k < i ==>
                    comp[k] == if old(comp[k]) == from then to else old(comp[k])
        invariant forall k :: i <= k < comp.Length ==> comp[k] == old(comp[k])
      {
        if comp[i] == from {
          comp[i] := to;
        }
      }
      forall k | 0 <= k < comp.Length ensures comp[k] == Merge(old(comp[..]), a, b)[k] {
        RelabelAt(old(comp[..]), from, to, k);
      }
    }

    /** Whether a and b are in the same component. */
    method Connected(a: int, b: int) returns (r: bool)
      requires 0 <= a < comp.Length && 0 <= b < comp.Length
      ensures r <==> SameIn(Labels(), a, b)
    {
      r := comp[a] == comp[b];
    }
  }
}
