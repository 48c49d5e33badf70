/** Cutting a meeting into overlapping chunks of whole utterances under a character and a byte cap. */
module Chunks {
  import opened Basics
  import opened Ranges
  import opened Transcript
  import Utf8

  datatype Caps = Caps(chars: nat, bytes: nat)

  const CHUNK_CAPS := Caps(12000, 20000)
  const OVERLAP := 2

  datatype Chunk = Chunk(offset: nat, text: string)

  predicate Within(caps: Caps, text: string) {
    |text| <= caps.chars && Utf8.Length(text) <= caps.bytes
  }

  /** Slicing as the source's language does it: bounds past the end are cut off, reversed bounds give nothing. */
  function Sliced(text: string, start: nat, end: nat): string {
    var stop := if end <= |text| then end else |text|;
    if start <= stop then text[start..stop] else ""
  }

  /** The text of utterances `left` up to but not including `right`. */
  function Slice(m: Meeting, left: nat, right: nat): string
    requires left < right <= |m.utterances|
  {
    Sliced(m.text, m.utterances[left].charStart, m.utterances[right - 1].charEnd)
  }

  predicate Fits(m: Meeting, caps: Caps, left: nat, right: nat)
    requires left < right <= |m.utterances|
  {
    Within(caps, Slice(m, left, right))
  }

  predicate FitsAlone(m: Meeting, caps: Caps, i: nat)
    requires i < |m.utterances|
  {
    Fits(m, caps, i, i + 1)
  }

  predicate EachFits(m: Meeting, caps: Caps) {
    forall i :: 0 <= i < |m.utterances| ==> FitsAlone(m, caps, i)
  }

  lemma WithinPart(caps: Caps, text: string, start: nat, end: nat, start': nat, end': nat)
    requires start <= start' <= end' <= end <= |text| && Within(caps, Sliced(text, start, end))
    ensures Within(caps, Sliced(text, start', end'))
  {
    SliceOfSlice(text, start, end, start' - start, end' - start);
    Utf8.LengthOfPart(text[start..end], start' - start, end' - start);
  }

  /** A part of a fitting range fits. */
  lemma FitsPart(m: Meeting, caps: Caps, left: nat, right: nat, left': nat, right': nat)
    requires Tiled(m) && left <= left' < right' <= right <= |m.utterances| && Fits(m, caps, left, right)
    ensures Fits(m, caps, left', right')
  {
    TiledBounds(m, left, left');
    TiledBounds(m, left', right' - 1);
    TiledBounds(m, right' - 1, right - 1);
    WithinPart(caps, m.text, m.utterances[left].charStart, m.utterances[right - 1].charEnd,
               m.utterances[left'].charStart, m.utterances[right' - 1].charEnd);
  }

  lemma TiledBounds(m: Meeting, i: nat, j: nat)
    requires Tiled(m) && i <= j < |m.utterances|
    ensures m.utterances[i].charStart <= m.utterances[j].charStart < m.utterances[j].charEnd <= |m.text|
    ensures m.utterances[i].charEnd <= m.utterances[j].charEnd
  {
    if i < j {
      TiledOrdered(m, i, j);
    }
  }

  /** Every range fits the caps and could not have been one utterance longer. */
  predicate Maximal(m: Meeting, caps: Caps, ranges: seq<Range>) {
    forall k :: 0 <= k < |ranges| ==>
                  && ranges[k].left < ranges[k].right <= |m.utterances|
                  && Fits(m, caps, ranges[k].left, ranges[k].right)
                  && (ranges[k].right < |m.utterances| ==> !Fits(m, caps, ranges[k].left, ranges[k].right + 1))
  }

  predicate Cut(m: Meeting, ranges: seq<Range>, chunks: seq<Chunk>) {
    && |chunks| == |ranges|
    && forall k :: 0 <= k < |chunks| ==>
         && ranges[k].left < ranges[k].right <= |m.utterances|
         && chunks[k] == Chunk(m.utterances[ranges[k].left].charStart, Slice(m, ranges[k].left, ranges[k].right))
  }

  /** Growing one chunk to the right as far as the caps allow. */
  method Grow(m: Meeting, caps: Caps, left: nat) returns (right: nat)
    requires left < |m.utterances|
    ensures left <= right <= |m.utterances|
    ensures right > left ==> Fits(m, caps, left, right)
    ensures right < |m.utterances| ==> !Fits(m, caps, left, right + 1)
  {
    right := left;
    while right < |m.utterances|
      invariant left <= right <= |m.utterances|
      invariant right > left ==> Fits(m, caps, left, right)
    {
      var value := Sliced(m.text, m.utterances[left].charStart, m.utterances[right].charEnd);
      if |value| > caps.chars || Utf8.Length(value) > caps.bytes {
        break;
      }
      right := right + 1;
    }
  }

  /** Where the next chunk starts, given those cut so far. */
  function Frontier(overlap: nat, ranges: seq<Range>): nat {
    if ranges == [] then 0 else NextLeft(ranges[|ranges| - 1], overlap)
  }

  ghost predicate Planned(m: Meeting, caps: Caps, overlap: nat, ranges: seq<Range>, chunks: seq<Chunk>) {
    Chained(|m.utterances|, overlap, ranges) && Maximal(m, caps, ranges) && Cut(m, ranges, chunks)
  }

  /** The chunks are the texts of maximal, overlapping ranges that hold every utterance. */
  ghost predicate Covering(m: Meeting, caps: Caps, overlap: nat, ranges: seq<Range>, chunks: seq<Chunk>) {
    Complete(|m.utterances|, overlap, ranges) && Maximal(m, caps, ranges) && Cut(m, ranges, chunks)
  }

  lemma MaximalOneMore(m: Meeting, caps: Caps, ranges: seq<Range>, r: Range)
    requires Maximal(m, caps, ranges) && r.left < r.right <= |m.utterances| && Fits(m, caps, r.left, r.right)
    requires r.right < |m.utterances| ==> !Fits(m, caps, r.left, r.right + 1)
    ensures Maximal(m, caps, ranges + [r])
  {
  }

  lemma CutOneMore(m: Meeting, ranges: seq<Range>, chunks: seq<Chunk>, r: Range)
    requires Cut(m, ranges, chunks) && r.left < r.right <= |m.utterances|
    ensures Cut(m, ranges + [r], chunks + [Chunk(m.utterances[r.left].charStart, Slice(m, r.left, r.right))])
  {
  }

  lemma ChainOneMore(n: nat, overlap: nat, ranges: seq<Range>, right: nat)
    requires Chained(n, overlap, ranges) && (ranges != [] ==> ranges[|ranges| - 1].right < n)
    requires Frontier(overlap, ranges) < right <= n
    ensures Chained(n, overlap, ranges + [Range(Frontier(overlap, ranges), right)])
  {
  }

  lemma PlanOneMore(m: Meeting, caps: Caps, overlap: nat, ranges: seq<Range>, chunks: seq<Chunk>, right: nat)
    requires Planned(m, caps, overlap, ranges, chunks)
    requires ranges != [] ==> ranges[|ranges| - 1].right < |m.utterances|
    requires Frontier(overlap, ranges) < right <= |m.utterances|
    requires Fits(m, caps, Frontier(overlap, ranges), right)
    requires right < |m.utterances| ==> !Fits(m, caps, Frontier(overlap, ranges), right + 1)
    ensures var left := Frontier(overlap, ranges);
            Planned(m, caps, overlap, ranges + [Range(left, right)],
                    chunks + [Chunk(m.utterances[left].charStart, Slice(m, left, right))])
  {
    var r := Range(Frontier(overlap, ranges), right);
    ChainOneMore(|m.utterances|, overlap, ranges, right);
    MaximalOneMore(m, caps, ranges, r);
    CutOneMore(m, ranges, chunks, r);
  }

  /** More is left to cut, from `left` on. */
  ghost predicate Cutting(m: Meeting, caps: Caps, overlap: nat, ranges: seq<Range>, chunks: seq<Chunk>, left: nat) {
    && Planned(m, caps, overlap, ranges, chunks) && left == Frontier(overlap, ranges)
    && (ranges != [] ==> ranges[|ranges| - 1].right < |m.utterances|)
  }

  lemma CuttingStarts(m: Meeting, caps: Caps, overlap: nat, ranges: seq<Range>, chunks: seq<Chunk>)
    requires |ranges| == |chunks| == 0
    ensures Cutting(m, caps, overlap, ranges, chunks, 0)
  {
  }

  lemma NextIsLater(r: Range, overlap: nat)
    requires r.left < r.right
    ensures r.left < NextLeft(r, overlap) <= r.right
  {
  }

  /** Cutting the next chunk, unless not even its first utterance fits. */
  method CutOne(m: Meeting, caps: Caps, overlap: nat, ghost ranges: seq<Range>, chunks: seq<Chunk>, left: nat)
      returns (right: nat, chunks': seq<Chunk>)
    requires Tiled(m) && left < |m.utterances| && Cutting(m, caps, overlap, ranges, chunks, left)
    ensures left <= right <= |m.utterances|
    ensures right == left ==> !FitsAlone(m, caps, left)
    ensures left < right < |m.utterances| ==>
              Cutting(m, caps, overlap, ranges + [Range(left, right)], chunks', NextLeft(Range(left, right), overlap))
    ensures right == |m.utterances| ==>
              Covering(m, caps, overlap, ranges + [Range(left, right)], chunks') && EachFits(m, caps)
  {
    right := Grow(m, caps, left);
    chunks' := chunks;
    if right > left {
      PlanOneMore(m, caps, overlap, ranges, chunks, right);
      chunks' := chunks + [Chunk(m.utterances[left].charStart, Slice(m, left, right))];
      if right == |m.utterances| {
        PlanComplete(m, caps, overlap, ranges + [Range(left, right)], chunks');
      }
    }
  }

  /** Something is left to cut until the last utterance is in a chunk. */
  lemma CuttingEnds(m: Meeting, caps: Caps, overlap: nat, ranges: seq<Range>, chunks: seq<Chunk>, left: nat)
    requires Tiled(m) && Cutting(m, caps, overlap, ranges, chunks, left)
    ensures left <= |m.utterances|
    ensures left == |m.utterances| ==> Covering(m, caps, overlap, ranges, chunks) && EachFits(m, caps)
  {
  }

  /**
   The chunks cover the meeting with the asked overlap, each as long as the caps allow, and the cut is refused
   exactly when a single utterance exceeds them.
   */
  method Split(m: Meeting, caps: Caps, overlap: nat) returns (r: Result<seq<Chunk>, string>, ghost ranges: seq<Range>)
    requires Tiled(m)
    ensures r.Ok? <==> EachFits(m, caps)
    ensures r.Ok? ==> Covering(m, caps, overlap, ranges, r.value)
  {
    var chunks: seq<Chunk> := [];
    var left := 0;
    ranges := [];
    CuttingStarts(m, caps, overlap, ranges, chunks);
    while left < |m.utterances|
      invariant Cutting(m, caps, overlap, ranges, chunks, left)
      decreases |m.utterances| - left
    {
      var right;
      right, chunks := CutOne(m, caps, overlap, ranges, chunks, left);
      if right == left {
        return Err("One utterance exceeds chunk ceiling; do not truncate"), ranges;
      }
      ranges := ranges + [Range(left, right)];
      if right == |m.utterances| {
        return Ok(chunks), ranges;
      }
      NextIsLater(Range(left, right), overlap);
      left := NextLeft(Range(left, right), overlap);
    }
    CuttingEnds(m, caps, overlap, ranges, chunks, left);
    return Ok(chunks), ranges;
  }

  lemma MaximalFits(m: Meeting, caps: Caps, ranges: seq<Range>, k: nat)
    requires Maximal(m, caps, ranges) && k < |ranges|
    ensures ranges[k].left < ranges[k].right <= |m.utterances| && Fits(m, caps, ranges[k].left, ranges[k].right)
  {
  }

  lemma PartFitsAlone(m: Meeting, caps: Caps, left: nat, right: nat, i: nat)
    requires Tiled(m) && left <= i < right <= |m.utterances| && Fits(m, caps, left, right)
    ensures FitsAlone(m, caps, i)
  {
    FitsPart(m, caps, left, right, i, i + 1);
  }

  lemma HeldFits(m: Meeting, caps: Caps, overlap: nat, ranges: seq<Range>, i: nat)
    requires Tiled(m) && Complete(|m.utterances|, overlap, ranges) && Maximal(m, caps, ranges) && i < |m.utterances|
    ensures FitsAlone(m, caps, i)
  {
    var k := FoundFrom(|m.utterances|, overlap, ranges, i, 0);
    MaximalFits(m, caps, ranges, k);
    PartFitsAlone(m, caps, ranges[k].left, ranges[k].right, i);
  }

  lemma CompleteFits(m: Meeting, caps: Caps, overlap: nat, ranges: seq<Range>)
    requires Tiled(m) && Complete(|m.utterances|, overlap, ranges) && Maximal(m, caps, ranges)
    ensures EachFits(m, caps)
  {
    forall i | 0 <= i < |m.utterances| ensures FitsAlone(m, caps, i) {
      HeldFits(m, caps, overlap, ranges, i);
    }
  }

  lemma PlanComplete(m: Meeting, caps: Caps, overlap: nat, ranges: seq<Range>, chunks: seq<Chunk>)
    requires Tiled(m) && Planned(m, caps, overlap, ranges, chunks)
    requires if |m.utterances| == 0 then ranges == [] else ranges != [] && ranges[|ranges| - 1].right == |m.utterances|
    ensures Covering(m, caps, overlap, ranges, chunks) && EachFits(m, caps)
  {
    CompleteFits(m, caps, overlap, ranges);
  }

  /** The utterances whose start lies inside a chunk's offsets are exactly those the chunk was cut from. */
  lemma SelectedByOffset(m: Meeting, left: nat, right: nat, i: nat)
    requires Tiled(m) && left < right <= |m.utterances| && i < |m.utterances|
    ensures var offset := m.utterances[left].charStart;
            offset <= m.utterances[i].charStart < offset + |Slice(m, left, right)| <==> left <= i < right
  {
    TiledBounds(m, left, right - 1);
    if i < left {
      TiledOrdered(m, i, left);
    } else {
      TiledBounds(m, left, i);
    }
    if right <= i {
      TiledOrdered(m, right - 1, i);
    } else {
      TiledBounds(m, i, right - 1);
    }
  }

  /** Of two ranges from the same start that fit and cannot be longer, neither ends later. */
  lemma SameRight(m: Meeting, caps: Caps, a: seq<Range>, b: seq<Range>, k: nat)
    requires Tiled(m) && Maximal(m, caps, a) && Maximal(m, caps, b)
    requires k < |a| && k < |b| && a[k].left == b[k].left
    ensures a[k].right <= b[k].right
  {
    if a[k].right > b[k].right {
      FitsPart(m, caps, a[k].left, a[k].right, b[k].left, b[k].right + 1);
    }
  }

  lemma SameStep(n: nat, overlap: nat, a: seq<Range>, b: seq<Range>, k: nat)
    requires Complete(n, overlap, a) && Complete(n, overlap, b) && k < |a|
    requires k > 0 ==> k - 1 < |b| && a[k - 1] == b[k - 1]
    ensures k < |b| && a[k].left == b[k].left
  {
    if k > 0 {
      assert a[k].left == NextLeft(a[k - 1], overlap) && a[k - 1].right < n;
      assert k < |b| ==> b[k].left == NextLeft(b[k - 1], overlap);
    }
  }

  lemma {:induction false} SameFrom(m: Meeting, caps: Caps, overlap: nat, a: seq<Range>, b: seq<Range>, k: nat)
    requires Tiled(m) && Complete(|m.utterances|, overlap, a) && Maximal(m, caps, a)
    requires Complete(|m.utterances|, overlap, b) && Maximal(m, caps, b) && k < |a|
    ensures k < |b| && a[k] == b[k]
  {
    if k > 0 {
      SameFrom(m, caps, overlap, a, b, k - 1);
    }
    SameStep(|m.utterances|, overlap, a, b, k);
    SameRight(m, caps, a, b, k);
    SameRight(m, caps, b, a, k);
  }

  /** There is only one way to cut a meeting into complete, maximal ranges. */
  lemma CutsUnique(m: Meeting, caps: Caps, overlap: nat, a: seq<Range>, b: seq<Range>)
    requires Tiled(m) && Complete(|m.utterances|, overlap, a) && Maximal(m, caps, a)
    requires Complete(|m.utterances|, overlap, b) && Maximal(m, caps, b)
    ensures a == b
  {
    forall k | 0 <= k < |a| ensures k < |b| && a[k] == b[k] {
      SameFrom(m, caps, overlap, a, b, k);
    }
    if a != [] && b != [] {
      SameFrom(m, caps, overlap, b, a, |b| - 1);
    }
  }
}
