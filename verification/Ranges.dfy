/** Overlapping ranges that step through `0..n`, each starting `overlap` before the previous end but always later. */
module Ranges {

  datatype Range = Range(left: nat, right: nat)

  /** Where the next range starts: the source's `max(left + 1, right - overlap)`. */
  function NextLeft(r: Range, overlap: nat): nat {
    if r.right >= overlap && r.right - overlap > r.left + 1 then r.right - overlap else r.left + 1
  }

  ghost predicate Chained(n: nat, overlap: nat, ranges: seq<Range>) {
    && (forall k :: 0 <= k < |ranges| ==> ranges[k].left < ranges[k].right <= n)
    && (forall k :: 0 <= k < |ranges| - 1 ==> ranges[k].right < n)
    && (forall j, k :: 0 <= j < k < |ranges| && k == j + 1 ==> ranges[k].left == NextLeft(ranges[j], overlap))
    && (|ranges| > 0 ==> ranges[0].left == 0)
  }

  ghost predicate Complete(n: nat, overlap: nat, ranges: seq<Range>) {
    Chained(n, overlap, ranges) && (if n == 0 then ranges == [] else ranges != [] && ranges[|ranges| - 1].right == n)
  }

  predicate Holds(r: Range, i: nat) {
    r.left <= i < r.right
  }

  lemma {:induction false} FoundFrom(n: nat, overlap: nat, ranges: seq<Range>, i: nat, k: nat) returns (m: nat)
    requires Complete(n, overlap, ranges) && i < n && k < |ranges| && ranges[k].left <= i
    ensures k <= m < |ranges| && Holds(ranges[m], i)
    decreases |ranges| - k
  {
    if i < ranges[k].right {
      m := k;
    } else {
      assert ranges[k] != ranges[|ranges| - 1];
      assert ranges[k + 1].left == NextLeft(ranges[k], overlap);
      m := FoundFrom(n, overlap, ranges, i, k + 1);
    }
  }

  /** Complete ranges hold every index. */
  lemma CompleteCovers(n: nat, overlap: nat, ranges: seq<Range>, i: nat)
    requires Complete(n, overlap, ranges) && i < n
    ensures exists k :: 0 <= k < |ranges| && Holds(ranges[k], i)
  {
    var m := FoundFrom(n, overlap, ranges, i, 0);
    assert Holds(ranges[m], i);
  }

  /** Successive ranges leave no gap, and really overlap by `overlap` whenever they are long enough. */
  lemma CompleteOverlaps(n: nat, overlap: nat, ranges: seq<Range>, j: nat)
    requires Complete(n, overlap, ranges) && j + 1 < |ranges|
    ensures ranges[j].left < ranges[j + 1].left <= ranges[j].right
    ensures ranges[j].right - ranges[j].left > overlap ==> ranges[j + 1].left == ranges[j].right - overlap
  {
    assert ranges[j + 1].left == NextLeft(ranges[j], overlap);
  }
}
