/** Cutting one converted chunk into windows that carry the metadata header and meet the product's caps. */
module WindowSplitting {
  import opened Basics
  import opened Ranges
  import opened Transcript
  import opened Spans
  import opened SpeakerWindows
  import C = Chunks
  import Utf8

  const OVERLAP := 2

  /** A converted chunk ready to be cut: bodies in order, each with the place its section would start. */
  ghost predicate Splittable(header: string, text: string, mapping: seq<Item>, starts: seq<nat>) {
    mapping != [] && header <= text && Separated(header, text, mapping) && StartsSeparate(header, mapping, starts)
  }

  function SectionEnd(text: string, starts: seq<nat>, right: nat): nat
    requires right <= |starts|
  {
    if right < |starts| then starts[right] else |text|
  }

  lemma SectionBounds(header: string, text: string, mapping: seq<Item>, starts: seq<nat>, left: nat, right: nat)
    requires Splittable(header, text, mapping, starts) && left < right <= |mapping|
    ensures |header| <= starts[left] <= SectionEnd(text, starts, right) <= |text|
    ensures forall k :: left <= k < right ==>
              starts[left] <= mapping[k].start <= mapping[k].end < SectionEnd(text, starts, right)
  {
    forall k | left <= k < right
      ensures starts[left] <= mapping[k].start <= mapping[k].end < SectionEnd(text, starts, right)
    {
      if left < k { assert mapping[left].end < mapping[k].start; }
    }
  }

  /** The text of a window: the header and then everything from its first section start to the next one's. */
  function SectionText(header: string, text: string, starts: seq<nat>, left: nat, right: nat): string
    requires left < right <= |starts|
  {
    header + C.Sliced(text, starts[left], SectionEnd(text, starts, right))
  }

  // ----- What stands in a section

  ghost predicate CleanHeads(us: seq<Utterance>) {
    forall i :: 0 <= i < |us| ==> '\n' !in Head(us[i])
  }

  function LineAfter(us: seq<Utterance>, right: nat): string
    requires right <= |us|
  {
    if right < |us| then ConvertedLine(us[right]) else ""
  }

  /** How much a section takes of the next line: the head but for its last line, so nothing when it has only one. */
  function Taken(us: seq<Utterance>, right: nat): (r: nat)
    requires right <= |us|
    ensures r <= |LineAfter(us, right)|
  {
    if right < |us| then HeadBreak(us[right]) else 0
  }

  /** The lines of a section's utterances, as the search for line ends cuts them. */
  function SectionBody(us: seq<Utterance>, left: nat, right: nat): string
    requires left < right <= |us|
  {
    ConvertedLine(us[left])[SkipOf(us, left)..] + Converted(us[left + 1..right])
    + LineAfter(us, right)[..Taken(us, right)]
  }

  /** The lines before `right`, the one there, and the rest. */
  lemma LinesAround(us: seq<Utterance>, right: nat) returns (rest: string)
    requires right <= |us|
    ensures Converted(us) == Converted(us[..right]) + LineAfter(us, right) + rest
  {
    assert us[..|us|] == us;
    if right < |us| {
      JoinedAround(ConvertedLine, us, right, |us|);
      rest := Converted(us[right + 1..|us|]);
    } else {
      rest := "";
    }
  }

  lemma LinesBetween(us: seq<Utterance>, left: nat, right: nat)
    requires left < right <= |us|
    ensures Converted(us[..right]) == Converted(us[..left]) + ConvertedLine(us[left]) + Converted(us[left + 1..right])
  {
    JoinedAround(ConvertedLine, us, left, right);
  }

  lemma Regroup(h: string, a: string, x: string, y: string, z: string, rest: string)
    ensures h + ((a + x + y) + z + rest) == (h + a) + (x + y + z) + rest
  {
  }

  /** The part of all lines that a section takes. */
  lemma SectionPart(header: string, us: seq<Utterance>, text: string, left: nat, right: nat, a: nat, d: nat)
    requires text == header + Converted(us) && left < right <= |us|
    requires a == |header| + |Converted(us[..left])| + SkipOf(us, left)
    requires d == |header| + |Converted(us[..right])| + Taken(us, right)
    ensures a <= d <= |text| && text[a..d] == SectionBody(us, left, right)
  {
    var before, x, y, z := Converted(us[..left]), ConvertedLine(us[left]), Converted(us[left + 1..right]),
        LineAfter(us, right);
    LinesBetween(us, left, right);
    var rest := LinesAround(us, right);
    Regroup(header, before, x, y, z, rest);
    CutInside(header + before, x, y, z, rest, SkipOf(us, left), Taken(us, right), a, d);
  }

  lemma SectionEndIs(header: string, us: seq<Utterance>, text: string, starts: seq<nat>, right: nat)
    requires text == header + Converted(us) && StartsExact(header, us, starts) && 0 < right <= |us|
    ensures SectionEnd(text, starts, right) == |header| + |Converted(us[..right])| + Taken(us, right)
  {
    if right == |us| {
      assert us[..right] == us;
    }
  }

  /** A section is the header and exactly the lines of its utterances, as far as the search for line ends finds them. */
  lemma SectionIsBody(header: string, us: seq<Utterance>, text: string, starts: seq<nat>, left: nat, right: nat)
    requires text == header + Converted(us) && StartsExact(header, us, starts) && left < right <= |us|
    ensures SectionText(header, text, starts, left, right) == header + SectionBody(us, left, right)
  {
    SectionEndIs(header, us, text, starts, right);
    SectionPart(header, us, text, left, right, starts[left], SectionEnd(text, starts, right));
  }

  type SectionTexts = (nat, nat) -> string

  function TextsOf(us: seq<Utterance>): SectionTexts {
    (left: nat, right: nat) => if left < right <= |us| then SectionBody(us, left, right) else ""
  }

  lemma TextsAt(us: seq<Utterance>, left: nat, right: nat)
    requires left < right <= |us|
    ensures TextsOf(us)(left, right) == SectionBody(us, left, right)
  {
  }

  lemma SectionInTexts(header: string, us: seq<Utterance>, text: string, starts: seq<nat>, left: nat, right: nat)
    requires text == header + Converted(us) && StartsExact(header, us, starts) && left < right <= |us|
    ensures SectionText(header, text, starts, left, right) == header + TextsOf(us)(left, right)
  {
    SectionIsBody(header, us, text, starts, left, right);
    TextsAt(us, left, right);
  }

  /** Sections, counted from the chunk's own start, are the header and then `texts`. */
  ghost predicate TextsExact(texts: SectionTexts, header: string, text: string, starts: seq<nat>) {
    forall i, j :: 0 <= i < j <= |starts| ==> SectionText(header, text, starts, i, j) == header + texts(i, j)
  }

  lemma SectionsAreTexts(header: string, us: seq<Utterance>, text: string, starts: seq<nat>)
    requires text == header + Converted(us) && StartsExact(header, us, starts)
    ensures TextsExact(TextsOf(us), header, text, starts)
  {
    forall i, j | 0 <= i < j <= |starts| ensures SectionText(header, text, starts, i, j) == header + TextsOf(us)(i, j) {
      SectionInTexts(header, us, text, starts, i, j);
    }
  }

  /** With heads on one line these are whole lines, and nothing else. */
  lemma SectionIsLines(us: seq<Utterance>, left: nat, right: nat)
    requires CleanHeads(us) && left < right <= |us|
    ensures TextsOf(us)(left, right) == Converted(us[left..right])
  {
    TextsAt(us, left, right);
    assert us[left..right] == us[left..left + 1] + us[left + 1..right];
    JoinedConcat(ConvertedLine, us[left..left + 1], us[left + 1..right]);
    JoinedOne(ConvertedLine, us, left);
  }

  function Moved(item: Item, delta: int): Item {
    item.(start := item.start + delta, end := item.end + delta)
  }

  function SectionItems(header: string, mapping: seq<Item>, starts: seq<nat>, left: nat, right: nat): (r: seq<Item>)
    requires left < right <= |mapping| == |starts|
    ensures |r| == right - left
    ensures forall k :: 0 <= k < |r| ==> r[k] == Moved(mapping[left + k], |header| - starts[left])
  {
    seq(right - left, k requires 0 <= k < right - left => Moved(mapping[left + k], |header| - starts[left]))
  }

  lemma MovedSlice(header: string, text: string, a: nat, b: nat, i: nat, j: nat)
    requires a <= i <= j <= b <= |text|
    ensures var delta := |header| - a; (header + text[a..b])[i + delta..j + delta] == text[i..j]
  {
    var value, delta := header + text[a..b], |header| - a;
    forall k | 0 <= k < j - i ensures value[i + delta..j + delta][k] == text[i..j][k] {
      assert value[i + delta + k] == text[a..b][i - a + k] == text[i + k];
    }
  }

  lemma MovedFaithful(m: Meeting, header: string, text: string, a: nat, b: nat, item: Item)
    requires ItemFaithful(m, text, item) && a <= item.start && item.end <= b <= |text|
    ensures ItemFaithful(m, header + C.Sliced(text, a, b), Moved(item, |header| - a))
  {
    MovedSlice(header, text, a, b, item.start, item.end);
  }

  lemma MovedOrdered(header: string, mapping: seq<Item>, starts: seq<nat>, left: nat, right: nat)
    requires Ordered(mapping) && left < right <= |mapping| == |starts|
    ensures Ordered(SectionItems(header, mapping, starts, left, right))
  {
    var items := SectionItems(header, mapping, starts, left, right);
    forall j, k | 0 <= j < k < |items|
      ensures items[j].end < items[k].start && items[j].originalEnd < items[k].originalStart
    {
      assert mapping[left + j].end < mapping[left + k].start;
    }
  }

  /** Shifting the items by the distance the section moved keeps every one of them on its own body. */
  lemma SectionFaithful(
      m: Meeting, header: string, text: string, mapping: seq<Item>, starts: seq<nat>, left: nat, right: nat,
      offset: nat)
    requires Splittable(header, text, mapping, starts) && left < right <= |mapping|
    requires Faithful(m, Window(offset, text, mapping))
    ensures Faithful(m, Window(offset, SectionText(header, text, starts, left, right),
                               SectionItems(header, mapping, starts, left, right)))
  {
    SectionBounds(header, text, mapping, starts, left, right);
    MovedOrdered(header, mapping, starts, left, right);
    var items := SectionItems(header, mapping, starts, left, right);
    forall k | 0 <= k < |items| ensures ItemFaithful(m, SectionText(header, text, starts, left, right), items[k]) {
      MovedFaithful(m, header, text, starts[left], SectionEnd(text, starts, right), mapping[left + k]);
    }
  }

  predicate Fits(promptFits: string -> bool, value: string) {
    C.Within(WINDOW_CAPS, value) && promptFits(value)
  }

  predicate SectionFits(promptFits: string -> bool, header: string, text: string, starts: seq<nat>, left: nat,
                        right: nat)
    requires left < right <= |starts|
  {
    Fits(promptFits, SectionText(header, text, starts, left, right))
  }

  /** The assumption on the unseen prompt: a window that fits still fits when it ends earlier. */
  ghost predicate DownwardClosed(promptFits: string -> bool) {
    forall v, w :: v <= w && promptFits(w) ==> promptFits(v)
  }

  lemma ShorterSectionFits(
      promptFits: string -> bool, header: string, text: string, mapping: seq<Item>, starts: seq<nat>,
      left: nat, right: nat, right': nat)
    requires Splittable(header, text, mapping, starts) && left < right' <= right <= |mapping|
    requires DownwardClosed(promptFits) && SectionFits(promptFits, header, text, starts, left, right)
    ensures SectionFits(promptFits, header, text, starts, left, right')
  {
    SectionBounds(header, text, mapping, starts, left, right);
    SectionBounds(header, text, mapping, starts, left, right');
    if right' < right { SectionBounds(header, text, mapping, starts, right', right); }
    PrefixFits(promptFits, header, text, starts[left], SectionEnd(text, starts, right'),
        SectionEnd(text, starts, right));
  }

  lemma PrefixFits(promptFits: string -> bool, header: string, text: string, a: nat, b: nat, c: nat)
    requires a <= b <= c <= |text| && DownwardClosed(promptFits) && Fits(promptFits, header + C.Sliced(text, a, c))
    ensures Fits(promptFits, header + C.Sliced(text, a, b))
  {
    var v, w := header + text[a..b], header + text[a..c];
    assert w == v + text[b..c];
    Utf8.LengthOfPart(w, 0, |v|);
    assert w[0..|v|] == v;
  }

  // ----- Choosing the cuts: only the answers of the size test matter

  type SizeTest = (nat, nat) -> bool

  predicate FitsAlone(fits: SizeTest, i: nat) {
    fits(i, i + 1)
  }

  /** A range that fits and that could not have been one utterance longer. */
  predicate Longest(fits: SizeTest, n: nat, r: Range) {
    r.left < r.right <= n && fits(r.left, r.right) && (r.right < n ==> !fits(r.left, r.right + 1))
  }

  /** Binary search for the right end. */
  method LongestFit(fits: SizeTest, n: nat, left: nat) returns (low: nat)
    requires left < n && FitsAlone(fits, left)
    ensures Longest(fits, n, Range(left, low))
  {
    low := left + 1;
    var high := n;
    while low < high
      invariant left < low <= high <= n
      invariant fits(left, low) && (high < n ==> !fits(left, high + 1))
      decreases high - low
    {
      var middle := (low + high + 1) / 2;
      if fits(left, middle) {
        low := middle;
      } else {
        high := middle - 1;
      }
    }
  }

  ghost predicate AllLongest(fits: SizeTest, n: nat, ranges: seq<Range>) {
    forall k :: 0 <= k < |ranges| ==> Longest(fits, n, ranges[k])
  }

  lemma ChainLongest(fits: SizeTest, n: nat, ranges: seq<Range>, right: nat)
    requires Chained(n, OVERLAP, ranges) && (ranges != [] ==> ranges[|ranges| - 1].right < n)
    requires AllLongest(fits, n, ranges) && Longest(fits, n, Range(C.Frontier(OVERLAP, ranges), right))
    ensures var more := ranges + [Range(C.Frontier(OVERLAP, ranges), right)];
            Chained(n, OVERLAP, more) && AllLongest(fits, n, more)
  {
    C.ChainOneMore(n, OVERLAP, ranges, right);
  }

  /** Overlapping longest ranges over a whole chunk, refused only when some utterance does not fit alone. */
  method CoverWithLongest(fits: SizeTest, n: nat) returns (ok: bool, ranges: seq<Range>)
    ensures ok ==> Complete(n, OVERLAP, ranges) && AllLongest(fits, n, ranges)
    ensures !ok ==> exists i :: 0 <= i < n && !FitsAlone(fits, i)
  {
    ranges := [];
    var left := 0;
    while left < n
      invariant left == C.Frontier(OVERLAP, ranges) <= n
      invariant Chained(n, OVERLAP, ranges) && AllLongest(fits, n, ranges)
      invariant ranges != [] ==> ranges[|ranges| - 1].right < n
      decreases n - left
    {
      if !FitsAlone(fits, left) {
        return false, ranges;
      }
      var low := LongestFit(fits, n, left);
      ChainLongest(fits, n, ranges, low);
      ranges := ranges + [Range(left, low)];
      if low == n {
        break;
      }
      left := NextLeft(Range(left, low), OVERLAP);
    }
    ok := true;
  }

  /** The size test of one converted chunk. */
  function SectionTest(promptFits: string -> bool, header: string, text: string, starts: seq<nat>): SizeTest {
    (left: nat, right: nat) => left < right <= |starts| && SectionFits(promptFits, header, text, starts, left, right)
  }

  lemma LongestFits(promptFits: string -> bool, header: string, text: string, starts: seq<nat>, r: Range)
    requires Longest(SectionTest(promptFits, header, text, starts), |starts|, r)
    ensures r.left < r.right <= |starts| && SectionFits(promptFits, header, text, starts, r.left, r.right)
    ensures r.right < |starts| ==> !SectionFits(promptFits, header, text, starts, r.left, r.right + 1)
  {
  }

  /** A range that fits still fits when it ends earlier. */
  ghost predicate EndsEarlier(fits: SizeTest, n: nat) {
    forall left, right, right' :: 0 <= left < right' <= right <= n && fits(left, right) ==> fits(left, right')
  }

  /** Under the assumption on the prompt this holds of the size test: the header and the caps allow it too. */
  lemma SectionTestEndsEarlier(promptFits: string -> bool, header: string, text: string, mapping: seq<Item>,
                               starts: seq<nat>)
    requires Splittable(header, text, mapping, starts) && DownwardClosed(promptFits)
    ensures EndsEarlier(SectionTest(promptFits, header, text, starts), |starts|)
  {
    var fits := SectionTest(promptFits, header, text, starts);
    forall left: nat, right: nat, right': nat | left < right' <= right <= |starts| && fits(left, right)
      ensures fits(left, right')
    {
      ShorterSectionFits(promptFits, header, text, mapping, starts, left, right, right');
    }
  }

  /** Then the binary search found the largest right end that fits. */
  lemma LongestIsLargest(fits: SizeTest, n: nat, r: Range, right: nat)
    requires EndsEarlier(fits, n) && Longest(fits, n, r) && r.right < right <= n
    ensures !fits(r.left, right)
  {
    assert !fits(r.left, r.right + 1);
  }

  function Section(header: string, offset: nat, text: string, mapping: seq<Item>, starts: seq<nat>, r: Range): Window
    requires r.left < r.right <= |mapping| == |starts|
  {
    Window(offset, SectionText(header, text, starts, r.left, r.right),
        SectionItems(header, mapping, starts, r.left, r.right))
  }

  /** The windows are the sections of the ranges, each the longest that fits. */
  ghost predicate Sections(
    promptFits: string -> bool, header: string, offset: nat, text: string, mapping: seq<Item>, starts: seq<nat>,
    windows: seq<Window>, ranges: seq<Range>)
    requires |mapping| == |starts|
  {
    && |windows| == |ranges|
    && forall k :: 0 <= k < |ranges| ==>
         && Longest(SectionTest(promptFits, header, text, starts), |starts|, ranges[k])
         && windows[k] == Section(header, offset, text, mapping, starts, ranges[k])
  }

  /** One chunk becomes the sections of overlapping longest ranges that cover it. */
  method SplitChunk(promptFits: string -> bool, header: string, offset: nat, text: string, mapping: seq<Item>,
                    starts: seq<nat>)
      returns (ok: bool, windows: seq<Window>, ranges: seq<Range>)
    requires |mapping| == |starts|
    ensures ok ==> Complete(|mapping|, OVERLAP, ranges)
    ensures ok ==> Sections(promptFits, header, offset, text, mapping, starts, windows, ranges)
    ensures !ok ==> exists i :: 0 <= i < |starts| && !FitsAlone(SectionTest(promptFits, header, text, starts), i)
  {
    windows := [];
    ok, ranges := CoverWithLongest(SectionTest(promptFits, header, text, starts), |mapping|);
    if !ok {
      return;
    }
    for k := 0 to |ranges|
      invariant |windows| == k
      invariant forall j :: 0 <= j < k ==>
                  Longest(SectionTest(promptFits, header, text, starts), |starts|, ranges[j])
                  && windows[j] == Section(header, offset, text, mapping, starts, ranges[j])
    {
      windows := windows + [Section(header, offset, text, mapping, starts, ranges[k])];
    }
  }

  // ----- When every utterance of a chunk fits alone

  /** The assumption on the unseen prompt under which refusal is exact: behind the header, a part of what fits fits. */
  ghost predicate PartsFit(promptFits: string -> bool, header: string) {
    forall a: string, b: string, c: string {:trigger header + (a + b + c)} ::
      promptFits(header + (a + b + c)) ==> promptFits(header + b)
  }

  lemma PartWithin(promptFits: string -> bool, header: string, a: string, b: string, c: string)
    requires PartsFit(promptFits, header) && Fits(promptFits, header + (a + b + c))
    ensures Fits(promptFits, header + b)
  {
    Utf8.LengthConcat(header, a + b + c);
    Utf8.LengthConcat(a + b, c);
    Utf8.LengthConcat(a, b);
    Utf8.LengthConcat(header, b);
  }

  lemma InnerFits(promptFits: string -> bool, header: string, text: string, a: nat, b: nat, c: nat, d: nat)
    requires PartsFit(promptFits, header) && a <= b <= c <= d <= |text|
    requires Fits(promptFits, header + C.Sliced(text, a, d))
    ensures Fits(promptFits, header + C.Sliced(text, b, c))
  {
    ThreeParts(text, a, b, c, d);
    PartWithin(promptFits, header, text[a..b], text[b..c], text[c..d]);
  }

  /** An utterance inside a section that fits also fits by itself. */
  lemma InnerSectionFits(
      promptFits: string -> bool, header: string, text: string, mapping: seq<Item>, starts: seq<nat>, r: Range, i: nat)
    requires Splittable(header, text, mapping, starts) && PartsFit(promptFits, header)
    requires r.left <= i < r.right <= |mapping| == |starts|
    requires SectionFits(promptFits, header, text, starts, r.left, r.right)
    ensures SectionFits(promptFits, header, text, starts, i, i + 1)
  {
    SectionBounds(header, text, mapping, starts, r.left, r.right);
    SectionBounds(header, text, mapping, starts, i, i + 1);
    if r.left < i { SectionBounds(header, text, mapping, starts, r.left, i); }
    if i + 1 < r.right { SectionBounds(header, text, mapping, starts, i + 1, r.right); }
    InnerFits(promptFits, header, text, starts[r.left], starts[i], SectionEnd(text, starts, i + 1),
        SectionEnd(text, starts, r.right));
  }

  /** A chunk that was cut has no utterance that is too long by itself. */
  lemma CutFitsAlone(
      promptFits: string -> bool, header: string, offset: nat, text: string, mapping: seq<Item>, starts: seq<nat>,
      windows: seq<Window>, ranges: seq<Range>, i: nat)
    requires Splittable(header, text, mapping, starts) && PartsFit(promptFits, header)
    requires |mapping| == |starts| && Complete(|mapping|, OVERLAP, ranges)
    requires Sections(promptFits, header, offset, text, mapping, starts, windows, ranges) && i < |mapping|
    ensures SectionFits(promptFits, header, text, starts, i, i + 1)
  {
    CompleteCovers(|mapping|, OVERLAP, ranges, i);
    var k :| 0 <= k < |ranges| && Holds(ranges[k], i);
    LongestFits(promptFits, header, text, starts, ranges[k]);
    InnerSectionFits(promptFits, header, text, mapping, starts, ranges[k], i);
  }
}
