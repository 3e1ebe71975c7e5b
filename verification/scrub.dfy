/**
 * Scrub lookup: from a pointer's x coordinate to the index of the nearest data
 * point, over the table of scaled x coordinates built with the path.
 */
module Scrub {

  /** Ascending order, the order a binary search needs. */
  predicate Sorted(xs: seq<real>)
  {
    forall i, j :: 0 <= i < j < |xs| ==> xs[i] <= xs[j]
  }

  function Dist(a: real, b: real): real
  {
    if a <= b then b - a else a - b
  }

  /**
   * Collections.binarySearch over an indexed list. On any table the result is
   * either an index in bounds or the encoding -1 - p of a position p in
   * 0..|xs|. On a sorted table a non-negative result holds the key, and a
   * negative result encodes the insertion point, before which every element is
   * smaller than the key and from which every element is larger.
   */
  method BinarySearch(xs: seq<real>, key: real) returns (r: int)
    ensures 0 <= r ==> r < |xs|
    ensures r < 0 ==> -1 - r <= |xs|
    ensures Sorted(xs) && 0 <= r ==> xs[r] == key
    ensures Sorted(xs) && r < 0 ==> forall i :: 0 <= i < -1 - r ==> xs[i] < key
    ensures Sorted(xs) && r < 0 ==> forall i :: -1 - r <= i < |xs| ==> key < xs[i]
  {
    var low, high := 0, |xs| - 1;
    while low <= high
      invariant 0 <= low <= high + 1 <= |xs|
      invariant Sorted(xs) ==> forall i :: 0 <= i < low ==> xs[i] < key
      invariant Sorted(xs) ==> forall i :: high < i < |xs| ==> key < xs[i]
    {
      var mid := (low + high) / 2;
      if xs[mid] < key {
        low := mid + 1;
      } else if xs[mid] > key {
        high := mid - 1;
      } else {
        return mid;
      }
    }
    r := -(low + 1);
  }

  /**
   * What getNearestIndex promises of index for the table xPoints and the
   * pointer's x. On any table: 0 when the table is empty, an index in bounds
   * otherwise. On a sorted table moreover: an exact hit is returned as found;
   * below the first entry the answer is 0 and above the last it is the last
   * index; strictly between two neighbours the lower one wins only when it is
   * strictly closer, so a midpoint goes to the upper one; and no entry is
   * closer than the one returned.
   */
  predicate IsNearestIndex(xPoints: seq<real>, x: real, index: nat)
  {
    && (|xPoints| == 0 ==> index == 0)
    && (|xPoints| > 0 ==> index < |xPoints|)
    && (Sorted(xPoints) ==>
      && (x in xPoints ==> index < |xPoints| && xPoints[index] == x)
      && (|xPoints| > 0 && x < xPoints[0] ==> index == 0)
      && (|xPoints| > 0 && xPoints[|xPoints| - 1] < x ==> index == |xPoints| - 1)
      && (forall p :: 0 < p < |xPoints| && xPoints[p - 1] < x < xPoints[p] ==>
            index == if xPoints[p] - x > x - xPoints[p - 1] then p - 1 else p)
      && (forall j :: 0 <= j < |xPoints| ==>
            index < |xPoints| && Dist(xPoints[index], x) <= Dist(xPoints[j], x)))
  }

  /** getNearestIndex: decodes the binary search's answer into the nearest index. */
  method NearestIndex(xPoints: seq<real>, x: real) returns (index: nat)
    ensures IsNearestIndex(xPoints, x, index)
  {
    var found := BinarySearch(xPoints, x);
    // an exact match is returned as it is
    if found >= 0 {
      HitIsNearest(xPoints, x, found);
      return found;
    }
    // otherwise decode the insertion point
    var p := -1 - found;
    if p == 0 {
      InsertionPointNearest(xPoints, x, p, 0);
      return 0;
    }
    if p == |xPoints| {
      InsertionPointNearest(xPoints, x, p, p - 1);
      return p - 1;
    }
    // between two neighbours: step down only if the lower one is strictly closer
    var deltaUp := xPoints[p] - x;
    var deltaDown := x - xPoints[p - 1];
    index := p;
    if deltaUp > deltaDown {
      index := index - 1;
    }
    InsertionPointNearest(xPoints, x, p, index);
  }

  /** An index holding x (on a sorted table) is a nearest index. */
  lemma HitIsNearest(xs: seq<real>, x: real, i: nat)
    requires i < |xs|
    requires Sorted(xs) ==> xs[i] == x
    ensures IsNearestIndex(xs, x, i)
  {
  }

  /**
   * Decoding an insertion point p as getNearestIndex does (0 at the start, the
   * last index at the end, otherwise the closer neighbour with ties going up)
   * gives a nearest index.
   */
  lemma InsertionPointNearest(xs: seq<real>, x: real, p: nat, index: nat)
    requires p <= |xs|
    requires Sorted(xs) ==> forall i :: 0 <= i < p ==> xs[i] < x
    requires Sorted(xs) ==> forall i :: p <= i < |xs| ==> x < xs[i]
    requires index == if p == 0 then 0
                      else if p == |xs| then p - 1
                      else if xs[p] - x > x - xs[p - 1] then p - 1 else p
    ensures IsNearestIndex(xs, x, index)
  {
    if Sorted(xs) && |xs| > 0 {
      forall j | 0 <= j < |xs|
        ensures Dist(xs[index], x) <= Dist(xs[j], x)
      {
        if j < p {
          assert xs[j] <= xs[p - 1];
        } else {
          assert xs[p] <= xs[j];
        }
      }
    }
  }
}
