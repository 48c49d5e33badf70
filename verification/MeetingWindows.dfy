/** The windows of a whole meeting: every chunk converted and split, every utterance kept whole and traceable. */
module MeetingWindows {
  import opened Basics
  import opened Ranges
  import opened Transcript
  import opened Spans
  import opened SpeakerWindows
  import opened WindowSplitting
  import C = Chunks

  /** An item of a window is the unchanged body of utterance `u`. */
  predicate BodyOf(u: Utterance, item: Item) {
    && item.segment == u.segment && item.speaker == u.speaker
    && item.originalStart == u.charStart + |Prefix(u)| && item.originalEnd == u.charEnd - 1
  }

  /** The items are the unchanged bodies of the utterances from `left` on. */
  ghost predicate Bodies(us: seq<Utterance>, left: nat, mapping: seq<Item>) {
    && left + |mapping| <= |us|
    && forall k :: 0 <= k < |mapping| ==> BodyOf(us[left + k], mapping[k])
  }

  /** What the window of a range holds behind its header. */
  type Piece = Range -> string

  /** The pieces of a chunk whose sections, counted from its own start, are `texts`. */
  function Placed(texts: SectionTexts, chunk: Range): Piece {
    (r: Range) =>
      if chunk.left <= r.left < r.right <= chunk.right then texts(r.left - chunk.left, r.right - chunk.left) else ""
  }

  /** In one chunk: the lines of the range, as the search for line ends cuts them. */
  function PieceOf(us: seq<Utterance>, chunk: Range): Piece
    requires chunk.left <= chunk.right <= |us|
  {
    Placed(TextsOf(us[chunk.left..chunk.right]), chunk)
  }

  function PiecesOf(us: seq<Utterance>): Range -> Piece {
    (chunk: Range) => if chunk.left <= chunk.right <= |us| then PieceOf(us, chunk) else r => ""
  }

  ghost predicate Inside(us: seq<Utterance>, r: Range, chunk: Range) {
    chunk.left <= r.left < r.right <= chunk.right <= |us|
  }

  /** Behind the header, within the caps, and nothing but the range's piece. */
  ghost predicate TextOf(promptFits: string -> bool, header: string, piece: Piece, value: string, r: Range) {
    Fits(promptFits, value) && value == header + piece(r)
  }

  ghost predicate ItemsOf(us: seq<Utterance>, mapping: seq<Item>, r: Range) {
    r.left < r.right && |mapping| == r.right - r.left && Bodies(us, r.left, mapping)
  }

  /** Up to the end of its chunk the window could not have taken one utterance more. */
  ghost predicate NoneLonger(promptFits: string -> bool, header: string, piece: Piece, r: Range, chunk: Range) {
    r.right < chunk.right ==> !Fits(promptFits, header + piece(Range(r.left, r.right + 1)))
  }

  /** A window of a chunk holds exactly the utterances of its range, faithfully, and as many as fit. */
  ghost predicate WindowOf(m: Meeting, promptFits: string -> bool, header: string, piece: Piece, w: Window, r: Range,
                           chunk: Range) {
    && Inside(m.utterances, r, chunk)
    && TextOf(promptFits, header, piece, w.text, r) && NoneLonger(promptFits, header, piece, r, chunk)
    && Faithful(m, w) && ItemsOf(m.utterances, w.mapping, r)
    && w.offset == m.utterances[chunk.left].charStart
  }

  /** Ranges in order that leave no utterance out between them. */
  ghost predicate NoGaps(n: nat, ranges: seq<Range>) {
    && (forall k :: 0 <= k < |ranges| ==> ranges[k].left < ranges[k].right <= n)
    && (ranges != [] ==> ranges[0].left == 0)
    && (forall j, k :: 0 <= j < k < |ranges| && k == j + 1 ==> ranges[k].left <= ranges[j].right)
  }

  function Reach(ranges: seq<Range>): nat {
    if ranges == [] then 0 else ranges[|ranges| - 1].right
  }

  lemma {:induction false} NoGapsCover(n: nat, ranges: seq<Range>, i: nat) returns (k: nat)
    requires NoGaps(n, ranges) && i < Reach(ranges)
    ensures k < |ranges| && Holds(ranges[k], i)
  {
    k := |ranges| - 1;
    if i < ranges[k].left {
      assert k > 0 && ranges[k].left <= ranges[k - 1].right;
      k := NoGapsCover(n, ranges[..k], i);
    }
  }

  function Shifted(ranges: seq<Range>, shift: nat): (r: seq<Range>)
    ensures |r| == |ranges|
    ensures forall k :: 0 <= k < |r| ==> r[k] == Range(ranges[k].left + shift, ranges[k].right + shift)
  {
    seq(|ranges|, k requires 0 <= k < |ranges| => Range(ranges[k].left + shift, ranges[k].right + shift))
  }

  lemma ShiftedNoGaps(n: nat, acc: seq<Range>, left: nat, right: nat, ranges: seq<Range>, overlap: nat)
    requires NoGaps(n, acc) && left < right <= n && (if acc == [] then left == 0 else left <= Reach(acc))
    requires Complete(right - left, overlap, ranges)
    ensures NoGaps(n, acc + Shifted(ranges, left)) && Reach(acc + Shifted(ranges, left)) == right
  {
    var all, more := acc + Shifted(ranges, left), Shifted(ranges, left);
    forall j, k | 0 <= j < k < |all| && k == j + 1 ensures all[k].left <= all[j].right {
      if j >= |acc| {
        CompleteOverlaps(right - left, overlap, ranges, j - |acc|);
      }
    }
  }

  /** A body that passed its check stands in the original text where its item says. */
  lemma OriginalBody(m: Meeting, blank: string -> bool, u: Utterance)
    requires Convertible(m, blank, u) && u.charStart < u.charEnd <= |m.text|
    ensures u.charStart + |Prefix(u)| + |u.body| == u.charEnd - 1
    ensures m.text[u.charStart + |Prefix(u)|..u.charEnd - 1] == u.body
  {
    LineParts(m.text, u.charStart, Prefix(u), u.body);
  }

  lemma LaidFaithful(
      m: Meeting, blank: string -> bool, header: string, us: seq<Utterance>, lines: seq<nat>, text: string,
      mapping: seq<Item>,
      offset: nat)
    requires Laid(header, us, lines, text, mapping)
    requires forall i :: 0 <= i < |us| ==> Convertible(m, blank, us[i]) && us[i].charStart < us[i].charEnd <= |m.text|
    requires forall i, j :: 0 <= i < j < |us| ==> us[i].charEnd <= us[j].charStart
    ensures Faithful(m, Window(offset, text, mapping))
  {
    LaidSeparated(header, us, lines, text, mapping);
    forall i | 0 <= i < |us| ensures ItemFaithful(m, text, mapping[i]) {
      ItemInPlace(text, us[i], lines[i], mapping[i]);
      OriginalBody(m, blank, us[i]);
    }
    forall i, j | 0 <= i < j < |us| ensures mapping[i].originalEnd < mapping[j].originalStart {
      assert us[i].charEnd <= us[j].charStart;
    }
  }

  lemma SliceOrdered(m: Meeting, left: nat, right: nat)
    requires Tiled(m) && left <= right <= |m.utterances|
    ensures var us := m.utterances[left..right];
            forall i, j :: 0 <= i < j < |us| ==> us[i].charEnd <= us[j].charStart
  {
    var us := m.utterances[left..right];
    forall i, j | 0 <= i < j < |us| ensures us[i].charEnd <= us[j].charStart {
      TiledOrdered(m, left + i, left + j);
    }
  }

  lemma ChunkFaithful(m: Meeting, blank: string -> bool, header: string, chunk: C.Chunk, left: nat, right: nat,
                      lines: seq<nat>, text: string, mapping: seq<Item>)
    requires Tiled(m) && Selects(m.utterances, chunk, left, right)
             && AllPassing(m.utterances, ConversionCheck(m, blank), chunk)
    requires Laid(header, m.utterances[left..right], lines, text, mapping)
    ensures Faithful(m, Window(chunk.offset, text, mapping))
  {
    var us := m.utterances[left..right];
    SliceOrdered(m, left, right);
    forall i | 0 <= i < |us| ensures Convertible(m, blank, us[i]) && us[i].charStart < us[i].charEnd <= |m.text| {
      assert StartsInside(chunk, m.utterances[left + i]);
    }
    LaidFaithful(m, blank, header, us, lines, text, mapping, chunk.offset);
  }

  lemma LaidBodies(us: seq<Utterance>, header: string, left: nat, right: nat, lines: seq<nat>, text: string,
                   mapping: seq<Item>)
    requires left <= right <= |us| && Laid(header, us[left..right], lines, text, mapping)
    ensures Bodies(us, left, mapping) && |mapping| == right - left
  {
    forall i | 0 <= i < |mapping| ensures BodyOf(us[left + i], mapping[i]) {
      assert LineAt(text, us[left..right][i], lines[i], mapping[i]);
      assert us[left..right][i] == us[left + i];
    }
  }

  /** Every section of a converted chunk is what its range must hold. */
  ghost predicate SectionsExact(piece: Piece, chunk: Range, header: string, text: string, starts: seq<nat>) {
    && chunk.left <= chunk.right && |starts| == chunk.right - chunk.left
    && forall i, j :: 0 <= i < j <= |starts| ==>
         SectionText(header, text, starts, i, j) == header + piece(Range(i + chunk.left, j + chunk.left))
  }

  lemma PieceAt(texts: SectionTexts, chunk: Range, i: nat, j: nat)
    requires i < j && j + chunk.left <= chunk.right
    ensures Placed(texts, chunk)(Range(i + chunk.left, j + chunk.left)) == texts(i, j)
  {
  }

  lemma PlacedExact(texts: SectionTexts, chunk: Range, header: string, text: string, starts: seq<nat>)
    requires TextsExact(texts, header, text, starts)
    requires chunk.left <= chunk.right && |starts| == chunk.right - chunk.left
    ensures SectionsExact(Placed(texts, chunk), chunk, header, text, starts)
  {
    forall i, j | 0 <= i < j <= |starts|
      ensures SectionText(header, text, starts, i, j)
              == header + Placed(texts, chunk)(Range(i + chunk.left, j + chunk.left))
    {
      PieceAt(texts, chunk, i, j);
    }
  }

  lemma LaidText(header: string, us: seq<Utterance>, lines: seq<nat>, text: string, mapping: seq<Item>)
    requires Laid(header, us, lines, text, mapping)
    ensures text == header + Converted(us)
  {
  }

  lemma LaidExact(us: seq<Utterance>, header: string, chunk: Range, lines: seq<nat>, text: string, mapping: seq<Item>,
                  starts: seq<nat>)
    requires chunk.left <= chunk.right <= |us| && Laid(header, us[chunk.left..chunk.right], lines, text, mapping)
    requires Consecutive(header, us[chunk.left..chunk.right], lines) && StartsFound(header, text, mapping, starts)
    ensures SectionsExact(PieceOf(us, chunk), chunk, header, text, starts)
  {
    LaidText(header, us[chunk.left..chunk.right], lines, text, mapping);
    SectionStarts(header, us[chunk.left..chunk.right], lines, text, mapping, starts);
    SectionsAreTexts(header, us[chunk.left..chunk.right], text, starts);
    PlacedExact(TextsOf(us[chunk.left..chunk.right]), chunk, header, text, starts);
  }

  /** A converted chunk whose sections can be cut: faithful, and item by item the chunk's utterances. */
  ghost predicate Ready(m: Meeting, header: string, piece: Piece, offset: nat, text: string, mapping: seq<Item>,
                        starts: seq<nat>, left: nat, right: nat) {
    && Splittable(header, text, mapping, starts) && Faithful(m, Window(offset, text, mapping))
    && left < right && |mapping| == right - left && Bodies(m.utterances, left, mapping)
    && offset == m.utterances[left].charStart
    && SectionsExact(piece, Range(left, right), header, text, starts)
  }

  lemma SectionBodies(us: seq<Utterance>, left: nat, header: string, mapping: seq<Item>, starts: seq<nat>, r: Range)
    requires Bodies(us, left, mapping) && r.left < r.right <= |mapping| == |starts|
    ensures ItemsOf(us, SectionItems(header, mapping, starts, r.left, r.right), Range(r.left + left, r.right + left))
  {
    var items := SectionItems(header, mapping, starts, r.left, r.right);
    forall k | 0 <= k < |items| ensures BodyOf(us[r.left + left + k], items[k]) {
      assert BodyOf(us[left + (r.left + k)], mapping[r.left + k]);
    }
  }

  lemma SectionTextOf(promptFits: string -> bool, header: string, piece: Piece, text: string, starts: seq<nat>,
                      left: nat, right: nat, r: Range)
    requires SectionsExact(piece, Range(left, right), header, text, starts) && r.left < r.right <= |starts|
    requires SectionFits(promptFits, header, text, starts, r.left, r.right)
    requires r.right < |starts| ==> !SectionFits(promptFits, header, text, starts, r.left, r.right + 1)
    ensures TextOf(promptFits, header, piece, SectionText(header, text, starts, r.left, r.right),
                   Range(r.left + left, r.right + left))
    ensures NoneLonger(promptFits, header, piece, Range(r.left + left, r.right + left), Range(left, right))
  {
    if r.right < |starts| {
      assert SectionText(header, text, starts, r.left, r.right + 1)
          == header + piece(Range(r.left + left, r.right + 1 + left));
      assert r.right + left + 1 == r.right + 1 + left;
    }
  }

  /** What of a section does not depend on its text. */
  lemma SectionKeeps(
      m: Meeting, header: string, piece: Piece, offset: nat, text: string, mapping: seq<Item>, starts: seq<nat>,
      left: nat, right: nat, r: Range)
    requires Ready(m, header, piece, offset, text, mapping, starts, left, right)
    requires r.left < r.right <= |mapping| == |starts|
    ensures Faithful(m, Window(offset, SectionText(header, text, starts, r.left, r.right),
                               SectionItems(header, mapping, starts, r.left, r.right)))
    ensures ItemsOf(m.utterances, SectionItems(header, mapping, starts, r.left, r.right),
                    Range(r.left + left, r.right + left))
    ensures Inside(m.utterances, Range(r.left + left, r.right + left), Range(left, right))
    ensures offset == m.utterances[left].charStart
  {
    SectionFaithful(m, header, text, mapping, starts, r.left, r.right, offset);
    SectionBodies(m.utterances, left, header, mapping, starts, r);
  }

  lemma WindowFrom(m: Meeting, promptFits: string -> bool, header: string, piece: Piece, offset: nat, value: string,
                   items: seq<Item>, r: Range, chunk: Range)
    requires Inside(m.utterances, r, chunk) && offset == m.utterances[chunk.left].charStart
    requires TextOf(promptFits, header, piece, value, r) && NoneLonger(promptFits, header, piece, r, chunk)
    requires Faithful(m, Window(offset, value, items)) && ItemsOf(m.utterances, items, r)
    ensures WindowOf(m, promptFits, header, piece, Window(offset, value, items), r, chunk)
  {
  }

  lemma SectionIsWindow(
      m: Meeting, promptFits: string -> bool, header: string, piece: Piece, offset: nat, text: string,
      mapping: seq<Item>, starts: seq<nat>, left: nat, right: nat, r: Range)
    requires Ready(m, header, piece, offset, text, mapping, starts, left, right)
    requires r.left < r.right <= |mapping| == |starts|
    requires SectionFits(promptFits, header, text, starts, r.left, r.right)
    requires r.right < |starts| ==> !SectionFits(promptFits, header, text, starts, r.left, r.right + 1)
    ensures WindowOf(m, promptFits, header, piece, Section(header, offset, text, mapping, starts, r),
                     Range(r.left + left, r.right + left), Range(left, right))
  {
    ReadyExact(m, header, piece, offset, text, mapping, starts, Range(left, right));
    SectionTextOf(promptFits, header, piece, text, starts, left, right, r);
    SectionKeeps(m, header, piece, offset, text, mapping, starts, left, right, r);
    WindowFrom(m, promptFits, header, piece, offset, SectionText(header, text, starts, r.left, r.right),
        SectionItems(header, mapping, starts, r.left, r.right), Range(r.left + left, r.right + left),
        Range(left, right));
  }

  lemma ConvertedReady(
      m: Meeting, blank: string -> bool, header: string, chunk: C.Chunk, left: nat, right: nat,
      lines: seq<nat>, text: string, mapping: seq<Item>, starts: seq<nat>)
    requires Tiled(m) && Selects(m.utterances, chunk, left, right)
             && AllPassing(m.utterances, ConversionCheck(m, blank), chunk)
    requires Laid(header, m.utterances[left..right], lines, text, mapping) && Separated(header, text, mapping)
    requires Consecutive(header, m.utterances[left..right], lines)
    requires StartsSeparate(header, mapping, starts) && StartsFound(header, text, mapping, starts)
    requires chunk.offset == m.utterances[left].charStart
    ensures Ready(m, header, PieceOf(m.utterances, Range(left, right)), chunk.offset, text, mapping, starts, left,
                  right)
  {
    ChunkFaithful(m, blank, header, chunk, left, right, lines, text, mapping);
    LaidBodies(m.utterances, header, left, right, lines, text, mapping);
    LaidExact(m.utterances, header, Range(left, right), lines, text, mapping, starts);
  }

  /** What was laid out are exactly the lines of the chunk's utterances. */
  lemma ChosenLaid(us: seq<Utterance>, header: string, chunk: C.Chunk, left: nat, right: nat, lines: seq<nat>,
                   text: string,
                   mapping: seq<Item>)
    requires Selects(us, chunk, left, right) && LaidUpTo(us, header, chunk, |us|, lines, text, mapping)
    ensures Laid(header, us[left..right], lines, text, mapping) && Consecutive(header, us[left..right], lines)
    ensures Separated(header, text, mapping) && mapping != []
  {
    ChosenIsRange(us, chunk, left, right, |us|);
    LaidSeparated(header, us[left..right], lines, text, mapping);
  }

  /** Converting one chunk and finding where its sections start. */
  method ConvertChunk(m: Meeting, blank: string -> bool, header: string, chunk: C.Chunk, ghost left: nat,
                      ghost right: nat)
      returns (ok: bool, text: string, mapping: seq<Item>, starts: seq<nat>)
    requires Tiled(m) && Selects(m.utterances, chunk, left, right) && chunk.offset == m.utterances[left].charStart
    ensures ok <==> AllPassing(m.utterances, ConversionCheck(m, blank), chunk)
    ensures ok ==> Ready(m, header, PieceOf(m.utterances, Range(left, right)), chunk.offset, text, mapping, starts,
                         left, right)
  {
    starts := [];
    ghost var lines;
    ok, text, mapping, lines := Convert(m.utterances, ConversionCheck(m, blank), header, chunk);
    if ok {
      ChosenLaid(m.utterances, header, chunk, left, right, lines, text, mapping);
      starts := LineStarts(header, text, mapping);
      ConvertedReady(m, blank, header, chunk, left, right, lines, text, mapping, starts);
    }
  }

  type WindowCheck = (Window, Range) -> bool

  ghost function ChunkTest(m: Meeting, promptFits: string -> bool, header: string, piece: Piece, chunk: Range)
    : WindowCheck
  {
    (w: Window, r: Range) => WindowOf(m, promptFits, header, piece, w, r, chunk)
  }

  /** A window of one of the chunks. */
  ghost function WindowTest(m: Meeting, promptFits: string -> bool, header: string, pieces: Range -> Piece,
                            cuts: seq<Range>)
    : WindowCheck
  {
    (w: Window, r: Range) =>
      exists c :: 0 <= c < |cuts| && WindowOf(m, promptFits, header, pieces(cuts[c]), w, r, cuts[c])
  }

  /** Windows that pass the check for their ranges, counted from `left`. */
  ghost predicate GoodFrom(good: WindowCheck, left: nat, windows: seq<Window>, ranges: seq<Range>) {
    && |windows| == |ranges|
    && forall k :: 0 <= k < |ranges| ==> good(windows[k], Range(ranges[k].left + left, ranges[k].right + left))
  }

  lemma WindowGood(m: Meeting, promptFits: string -> bool, header: string, piece: Piece, w: Window, r: Range,
                   chunk: Range)
    requires WindowOf(m, promptFits, header, piece, w, r, chunk)
    ensures ChunkTest(m, promptFits, header, piece, chunk)(w, r)
  {
  }

  lemma SectionGood(
      m: Meeting, promptFits: string -> bool, header: string, piece: Piece, offset: nat, text: string,
      mapping: seq<Item>, starts: seq<nat>, left: nat, right: nat, r: Range, w: Window)
    requires Ready(m, header, piece, offset, text, mapping, starts, left, right) && |mapping| == |starts|
    requires Longest(SectionTest(promptFits, header, text, starts), |starts|, r)
    requires w == Section(header, offset, text, mapping, starts, r)
    ensures ChunkTest(m, promptFits, header, piece, Range(left, right))(w, Range(r.left + left, r.right + left))
  {
    LongestFits(promptFits, header, text, starts, r);
    SectionIsWindow(m, promptFits, header, piece, offset, text, mapping, starts, left, right, r);
    WindowGood(m, promptFits, header, piece, w, Range(r.left + left, r.right + left), Range(left, right));
  }

  /** Whatever holds of every longest section holds of the windows cut. */
  lemma SectionsPass(
      good: WindowCheck, promptFits: string -> bool, header: string, offset: nat, text: string, mapping: seq<Item>,
      starts: seq<nat>, left: nat, windows: seq<Window>, ranges: seq<Range>)
    requires |mapping| == |starts| && Sections(promptFits, header, offset, text, mapping, starts, windows, ranges)
    requires forall r :: Longest(SectionTest(promptFits, header, text, starts), |starts|, r) ==>
               good(Section(header, offset, text, mapping, starts, r), Range(r.left + left, r.right + left))
    ensures GoodFrom(good, left, windows, ranges)
  {
  }

  lemma SectionsGood(
      m: Meeting, promptFits: string -> bool, header: string, piece: Piece, offset: nat, text: string,
      mapping: seq<Item>, starts: seq<nat>, left: nat, right: nat, windows: seq<Window>, ranges: seq<Range>)
    requires Ready(m, header, piece, offset, text, mapping, starts, left, right) && |mapping| == |starts|
    requires Sections(promptFits, header, offset, text, mapping, starts, windows, ranges)
    ensures GoodFrom(ChunkTest(m, promptFits, header, piece, Range(left, right)), left, windows, ranges)
  {
    forall r | Longest(SectionTest(promptFits, header, text, starts), |starts|, r)
      ensures ChunkTest(m, promptFits, header, piece, Range(left, right))(
                Section(header, offset, text, mapping, starts, r), Range(r.left + left, r.right + left))
    {
      SectionGood(m, promptFits, header, piece, offset, text, mapping, starts, left, right, r,
                  Section(header, offset, text, mapping, starts, r));
    }
    SectionsPass(ChunkTest(m, promptFits, header, piece, Range(left, right)), promptFits, header, offset, text, mapping,
                 starts, left, windows, ranges);
  }

  /** An utterance of a chunk that is not exactly its line, or whose window is too long even alone. */
  ghost predicate Unfit(m: Meeting, blank: string -> bool, promptFits: string -> bool, header: string, piece: Piece,
                        i: nat) {
    i < |m.utterances|
    && (!Convertible(m, blank, m.utterances[i]) || !Fits(promptFits, header + piece(Range(i, i + 1))))
  }

  ghost predicate ChunkUnfit(m: Meeting, blank: string -> bool, promptFits: string -> bool, header: string,
                             piece: Piece, chunk: Range) {
    exists i :: chunk.left <= i < chunk.right && Unfit(m, blank, promptFits, header, piece, i)
  }

  /** An utterance that is too long for a chunk by itself, or one that its chunk has no window for. */
  ghost predicate SomeUnfit(m: Meeting, blank: string -> bool, promptFits: string -> bool, header: string,
                            pieces: Range -> Piece, cuts: seq<Range>) {
    || !C.EachFits(m, C.CHUNK_CAPS)
    || exists c :: 0 <= c < |cuts| && ChunkUnfit(m, blank, promptFits, header, pieces(cuts[c]), cuts[c])
  }

  /** The section of one utterance of a chunk. */
  lemma SectionAlone(header: string, piece: Piece, text: string, starts: seq<nat>, chunk: Range, i: nat, k: nat)
    requires SectionsExact(piece, chunk, header, text, starts) && k < |starts| && i == k + chunk.left
    ensures SectionText(header, text, starts, k, k + 1) == header + piece(Range(i, i + 1))
  {
    assert SectionText(header, text, starts, k, k + 1)
        == header + piece(Range(k + chunk.left, k + 1 + chunk.left));
    assert Range(k + chunk.left, k + 1 + chunk.left) == Range(i, i + 1);
  }

  lemma FailedSectionUnfit(
      m: Meeting, blank: string -> bool, promptFits: string -> bool, header: string, piece: Piece, text: string,
      starts: seq<nat>, chunk: Range, i: nat)
    requires SectionsExact(piece, chunk, header, text, starts) && i < |starts| && chunk.right <= |m.utterances|
    requires !FitsAlone(SectionTest(promptFits, header, text, starts), i)
    ensures ChunkUnfit(m, blank, promptFits, header, piece, chunk)
  {
    SectionAlone(header, piece, text, starts, chunk, i + chunk.left, i);
    assert Unfit(m, blank, promptFits, header, piece, i + chunk.left);
  }

  lemma FailedCheckUnfit(m: Meeting, blank: string -> bool, promptFits: string -> bool, header: string, piece: Piece,
                         chunk: C.Chunk, cut: Range)
    requires Selects(m.utterances, chunk, cut.left, cut.right)
    requires !AllPassing(m.utterances, ConversionCheck(m, blank), chunk)
    ensures ChunkUnfit(m, blank, promptFits, header, piece, cut)
  {
    var i :| 0 <= i < |m.utterances| && StartsInside(chunk, m.utterances[i])
             && !ConversionCheck(m, blank)(m.utterances[i]);
    assert Unfit(m, blank, promptFits, header, piece, i);
  }

  lemma PassedCheck(m: Meeting, blank: string -> bool, chunk: C.Chunk, cut: Range, i: nat)
    requires Selects(m.utterances, chunk, cut.left, cut.right) && cut.left <= i < cut.right
    requires AllPassing(m.utterances, ConversionCheck(m, blank), chunk)
    ensures Convertible(m, blank, m.utterances[i])
  {
    assert StartsInside(chunk, m.utterances[i]) && ConversionCheck(m, blank)(m.utterances[i]);
  }

  lemma CutFitsAt(
      promptFits: string -> bool, header: string, piece: Piece, offset: nat, cut: Range, text: string,
      mapping: seq<Item>, starts: seq<nat>, windows: seq<Window>, ranges: seq<Range>, i: nat, k: nat)
    requires Splittable(header, text, mapping, starts) && SectionsExact(piece, cut, header, text, starts)
    requires |mapping| == |starts| && Complete(|mapping|, OVERLAP, ranges) && PartsFit(promptFits, header)
    requires Sections(promptFits, header, offset, text, mapping, starts, windows, ranges)
    requires k < |starts| && i == k + cut.left
    ensures Fits(promptFits, header + piece(Range(i, i + 1)))
  {
    CutFitsAlone(promptFits, header, offset, text, mapping, starts, windows, ranges, k);
    SectionAlone(header, piece, text, starts, cut, i, k);
  }

  /** A chunk that was converted and cut has nothing unfit. */
  lemma CutFits(
      m: Meeting, blank: string -> bool, promptFits: string -> bool, header: string, piece: Piece, chunk: C.Chunk,
      cut: Range, text: string, mapping: seq<Item>, starts: seq<nat>, windows: seq<Window>, ranges: seq<Range>)
    requires Selects(m.utterances, chunk, cut.left, cut.right)
    requires AllPassing(m.utterances, ConversionCheck(m, blank), chunk) && PartsFit(promptFits, header)
    requires Splittable(header, text, mapping, starts) && SectionsExact(piece, cut, header, text, starts)
    requires |mapping| == |starts| && Complete(|mapping|, OVERLAP, ranges)
    requires Sections(promptFits, header, chunk.offset, text, mapping, starts, windows, ranges)
    ensures !ChunkUnfit(m, blank, promptFits, header, piece, cut)
  {
    forall i | cut.left <= i < cut.right ensures !Unfit(m, blank, promptFits, header, piece, i) {
      PassedCheck(m, blank, chunk, cut, i);
      CutFitsAt(promptFits, header, piece, chunk.offset, cut, text, mapping, starts, windows, ranges, i, i - cut.left);
    }
  }

  /** What a converted chunk says of its sections. */
  lemma ReadyExact(m: Meeting, header: string, piece: Piece, offset: nat, text: string, mapping: seq<Item>,
                   starts: seq<nat>, chunk: Range)
    requires Ready(m, header, piece, offset, text, mapping, starts, chunk.left, chunk.right)
    ensures SectionsExact(piece, chunk, header, text, starts) && Splittable(header, text, mapping, starts)
    ensures |starts| == |mapping| == chunk.right - chunk.left
  {
    assert Range(chunk.left, chunk.right) == chunk;
  }

  /** Cutting one converted chunk. */
  method CutChunk(m: Meeting, blank: string -> bool, promptFits: string -> bool, header: string, ghost piece: Piece,
                  ghost chunk: C.Chunk, offset: nat, text: string, mapping: seq<Item>, starts: seq<nat>,
                  ghost cut: Range)
      returns (ok: bool, windows: seq<Window>, ranges: seq<Range>)
    requires Ready(m, header, piece, offset, text, mapping, starts, cut.left, cut.right)
    requires Selects(m.utterances, chunk, cut.left, cut.right) && offset == chunk.offset
    requires AllPassing(m.utterances, ConversionCheck(m, blank), chunk)
    ensures !ok ==> ChunkUnfit(m, blank, promptFits, header, piece, cut)
    ensures ok && PartsFit(promptFits, header) ==> !ChunkUnfit(m, blank, promptFits, header, piece, cut)
    ensures ok ==> Complete(cut.right - cut.left, OVERLAP, ranges)
    ensures ok ==> GoodFrom(ChunkTest(m, promptFits, header, piece, cut), cut.left, windows, ranges)
  {
    assert Range(cut.left, cut.right) == cut;
    ReadyExact(m, header, piece, offset, text, mapping, starts, cut);
    ok, windows, ranges := SplitChunk(promptFits, header, offset, text, mapping, starts);
    if !ok {
      ghost var i :| 0 <= i < |starts| && !FitsAlone(SectionTest(promptFits, header, text, starts), i);
      FailedSectionUnfit(m, blank, promptFits, header, piece, text, starts, cut, i);
    } else {
      SectionsGood(m, promptFits, header, piece, offset, text, mapping, starts, cut.left, cut.right, windows, ranges);
      if PartsFit(promptFits, header) {
        CutFits(m, blank, promptFits, header, piece, chunk, cut, text, mapping, starts, windows, ranges);
      }
    }
  }

  /** All windows of one chunk. */
  method ChunkWindows(m: Meeting, blank: string -> bool, promptFits: string -> bool, header: string, chunk: C.Chunk,
                      ghost cut: Range)
      returns (ok: bool, windows: seq<Window>, ranges: seq<Range>)
    requires Tiled(m) && Selects(m.utterances, chunk, cut.left, cut.right)
    requires chunk.offset == m.utterances[cut.left].charStart
    ensures !ok ==> ChunkUnfit(m, blank, promptFits, header, PieceOf(m.utterances, cut), cut)
    ensures ok && PartsFit(promptFits, header) ==>
              !ChunkUnfit(m, blank, promptFits, header, PieceOf(m.utterances, cut), cut)
    ensures ok ==> PassTest(m, blank)(chunk)
    ensures ok ==> Complete(cut.right - cut.left, OVERLAP, ranges)
    ensures ok ==> GoodFrom(ChunkTest(m, promptFits, header, PieceOf(m.utterances, cut), cut), cut.left, windows,
                            ranges)
  {
    ghost var piece := PieceOf(m.utterances, cut);
    assert Range(cut.left, cut.right) == cut;
    windows, ranges := [], [];
    var text, mapping, starts;
    ok, text, mapping, starts := ConvertChunk(m, blank, header, chunk, cut.left, cut.right);
    if ok {
      ok, windows, ranges :=
        CutChunk(m, blank, promptFits, header, piece, chunk, chunk.offset, text, mapping, starts, cut);
    } else {
      FailedCheckUnfit(m, blank, promptFits, header, piece, chunk, cut);
    }
  }

  /** Windows with their ranges, complete up to the reach of the ranges. */
  ghost predicate Collected(good: WindowCheck, n: nat, windows: seq<Window>, ranges: seq<Range>) {
    NoGaps(n, ranges) && GoodFrom(good, 0, windows, ranges)
  }

  /** Every utterance of the meeting is held by some window. */
  ghost predicate AllCollected(good: WindowCheck, n: nat, windows: seq<Window>, ranges: seq<Range>) {
    Collected(good, n, windows, ranges) && Reach(ranges) == n
  }

  lemma GoodConcat(
      good: WindowCheck, left: nat, windows: seq<Window>, ranges: seq<Range>, more: seq<Window>, local: seq<Range>)
    requires GoodFrom(good, 0, windows, ranges) && GoodFrom(good, left, more, local)
    ensures GoodFrom(good, 0, windows + more, ranges + Shifted(local, left))
  {
  }

  lemma CollectMore(
      good: WindowCheck, n: nat, windows: seq<Window>, ranges: seq<Range>,
      left: nat, right: nat, more: seq<Window>, local: seq<Range>)
    requires Collected(good, n, windows, ranges)
    requires left < right <= n && (if ranges == [] then left == 0 else left <= Reach(ranges))
    requires Complete(right - left, OVERLAP, local) && GoodFrom(good, left, more, local)
    ensures Collected(good, n, windows + more, ranges + Shifted(local, left))
    ensures Reach(ranges + Shifted(local, left)) == right
  {
    ShiftedNoGaps(n, ranges, left, right, local, OVERLAP);
    GoodConcat(good, left, windows, ranges, more, local);
  }

  lemma ChunkSelects(m: Meeting, cuts: seq<Range>, chunks: seq<C.Chunk>, c: nat)
    requires Tiled(m) && C.Cut(m, cuts, chunks) && c < |cuts|
    ensures Selects(m.utterances, chunks[c], cuts[c].left, cuts[c].right)
    ensures chunks[c].offset == m.utterances[cuts[c].left].charStart
  {
    CutSelects(m, chunks[c], cuts[c].left, cuts[c].right);
  }

  /** Where the chunks cut so far end, and where the next one starts. */
  lemma NextCut(n: nat, cuts: seq<Range>, c: nat)
    requires Complete(n, C.OVERLAP, cuts) && c < |cuts|
    ensures cuts[c].left < cuts[c].right <= n
    ensures if c == 0 then cuts[c].left == 0 else cuts[c].left <= cuts[c - 1].right
  {
    if c > 0 {
      CompleteOverlaps(n, C.OVERLAP, cuts, c - 1);
    }
  }

  ghost predicate CollectedUpTo(good: WindowCheck, n: nat, cuts: seq<Range>, c: nat, windows: seq<Window>,
                                ranges: seq<Range>)
    requires c <= |cuts|
  {
    && Collected(good, n, windows, ranges)
    && if c == 0 then ranges == [] else ranges != [] && Reach(ranges) == cuts[c - 1].right
  }

  lemma CollectChunk(
      good: WindowCheck, n: nat, cuts: seq<Range>, c: nat, windows: seq<Window>, ranges: seq<Range>,
      more: seq<Window>, local: seq<Range>)
    requires Complete(n, C.OVERLAP, cuts) && c < |cuts| && CollectedUpTo(good, n, cuts, c, windows, ranges)
    requires Complete(cuts[c].right - cuts[c].left, OVERLAP, local) && GoodFrom(good, cuts[c].left, more, local)
    ensures CollectedUpTo(good, n, cuts, c + 1, windows + more, ranges + Shifted(local, cuts[c].left))
  {
    NextCut(n, cuts, c);
    CollectMore(good, n, windows, ranges, cuts[c].left, cuts[c].right, more, local);
  }

  /** The windows of one chunk are windows of one of the chunks. */
  lemma ChunkGood(
      m: Meeting, promptFits: string -> bool, header: string, pieces: Range -> Piece, cuts: seq<Range>, c: nat,
      windows: seq<Window>, ranges: seq<Range>)
    requires c < |cuts|
    requires GoodFrom(ChunkTest(m, promptFits, header, pieces(cuts[c]), cuts[c]), cuts[c].left, windows, ranges)
    ensures GoodFrom(WindowTest(m, promptFits, header, pieces, cuts), cuts[c].left, windows, ranges)
  {
    forall k | 0 <= k < |ranges|
      ensures WindowTest(m, promptFits, header, pieces, cuts)(windows[k],
              Range(ranges[k].left + cuts[c].left, ranges[k].right + cuts[c].left))
    {
      var r := Range(ranges[k].left + cuts[c].left, ranges[k].right + cuts[c].left);
      assert WindowOf(m, promptFits, header, pieces(cuts[c]), windows[k], r, cuts[c]);
    }
  }

  ghost function PassTest(m: Meeting, blank: string -> bool): C.Chunk -> bool {
    (chunk: C.Chunk) => AllPassing(m.utterances, ConversionCheck(m, blank), chunk)
  }

  ghost predicate EachPasses(passes: C.Chunk -> bool, chunks: seq<C.Chunk>, n: nat)
    requires n <= |chunks|
  {
    forall c :: 0 <= c < n ==> passes(chunks[c])
  }

  lemma OneMorePasses(passes: C.Chunk -> bool, chunks: seq<C.Chunk>, n: nat)
    requires n < |chunks| && EachPasses(passes, chunks, n) && passes(chunks[n])
    ensures EachPasses(passes, chunks, n + 1)
  {
  }

  /** None of the first chunks has anything unfit, as far as the prompt allows to say so. */
  ghost predicate FitUpTo(m: Meeting, blank: string -> bool, promptFits: string -> bool, header: string,
                          pieces: Range -> Piece, cuts: seq<Range>, n: nat)
    requires n <= |cuts|
  {
    PartsFit(promptFits, header) ==>
      forall c :: 0 <= c < n ==> !ChunkUnfit(m, blank, promptFits, header, pieces(cuts[c]), cuts[c])
  }

  /** The windows of all chunks, in order. */
  method WindowsOfChunks(m: Meeting, blank: string -> bool, promptFits: string -> bool, header: string,
                         chunks: seq<C.Chunk>, ghost pieces: Range -> Piece, ghost cuts: seq<Range>)
      returns (ok: bool, windows: seq<Window>, ghost ranges: seq<Range>)
    requires Tiled(m) && Complete(|m.utterances|, C.OVERLAP, cuts) && C.Cut(m, cuts, chunks)
    requires pieces == PiecesOf(m.utterances)
    ensures !ok ==> exists c :: 0 <= c < |cuts| && ChunkUnfit(m, blank, promptFits, header, pieces(cuts[c]), cuts[c])
    ensures ok ==> FitUpTo(m, blank, promptFits, header, pieces, cuts, |cuts|)
    ensures ok ==>
              CollectedUpTo(WindowTest(m, promptFits, header, pieces, cuts), |m.utterances|, cuts, |cuts|, windows,
                            ranges)
    ensures ok ==> EachPasses(PassTest(m, blank), chunks, |chunks|)
  {
    windows, ranges := [], [];
    ghost var good, n := WindowTest(m, promptFits, header, pieces, cuts), |m.utterances|;
    ghost var passes := PassTest(m, blank);
    for c := 0 to |chunks|
      invariant CollectedUpTo(good, n, cuts, c, windows, ranges)
      invariant EachPasses(passes, chunks, c) && FitUpTo(m, blank, promptFits, header, pieces, cuts, c)
    {
      ChunkSelects(m, cuts, chunks, c);
      var more, local;
      ok, more, local := ChunkWindows(m, blank, promptFits, header, chunks[c], cuts[c]);
      if !ok {
        return;
      }
      ChunkGood(m, promptFits, header, pieces, cuts, c, more, local);
      CollectChunk(good, n, cuts, c, windows, ranges, more, local);
      OneMorePasses(passes, chunks, c);
      windows := windows + more;
      ranges := ranges + Shifted(local, cuts[c].left);
    }
    ok := true;
  }

  /** Every utterance starts inside some chunk, so every one has passed its check. */
  lemma EachChecked(m: Meeting, blank: string -> bool, cuts: seq<Range>, chunks: seq<C.Chunk>, i: nat)
    requires Tiled(m) && Complete(|m.utterances|, C.OVERLAP, cuts) && C.Cut(m, cuts, chunks) && i < |m.utterances|
    requires EachPasses(PassTest(m, blank), chunks, |chunks|)
    ensures Convertible(m, blank, m.utterances[i])
  {
    CompleteCovers(|m.utterances|, C.OVERLAP, cuts, i);
    var c :| 0 <= c < |cuts| && Holds(cuts[c], i);
    ChunkSelects(m, cuts, chunks, c);
    assert StartsInside(chunks[c], m.utterances[i]) && PassTest(m, blank)(chunks[c]);
    assert ConversionCheck(m, blank)(m.utterances[i]);
  }

  ghost predicate AllConvertible(m: Meeting, blank: string -> bool) {
    forall i :: 0 <= i < |m.utterances| ==> Convertible(m, blank, m.utterances[i])
  }

  /**
   The windows of a meeting: each holds whole, unchanged utterances, is exactly its lines behind the header, within the
   caps, and has as many as fit in its chunk; together they hold every utterance, in order and without a gap. A meeting
   is refused only for an utterance that is not its line or that is too long even alone; and where a part of a prompt
   that fits always fits, it is refused exactly then. The chunks are the only complete and maximal ones.
   */
  method SpeakerWindowsOf(m: Meeting, blank: string -> bool, promptFits: string -> bool, header: string)
      returns (r: Result<seq<Window>, string>, ghost ranges: seq<Range>, ghost cuts: seq<Range>)
    requires Tiled(m)
    ensures r.Ok? ==> AllCollected(WindowTest(m, promptFits, header, PiecesOf(m.utterances), cuts), |m.utterances|,
                                   r.value, ranges)
    ensures C.EachFits(m, C.CHUNK_CAPS) ==>
              Complete(|m.utterances|, C.OVERLAP, cuts) && C.Maximal(m, C.CHUNK_CAPS, cuts)
    ensures r.Ok? ==> AllConvertible(m, blank)
    ensures r.Err? ==> SomeUnfit(m, blank, promptFits, header, PiecesOf(m.utterances), cuts)
    ensures PartsFit(promptFits, header) ==>
              (r.Err? <==> SomeUnfit(m, blank, promptFits, header, PiecesOf(m.utterances), cuts))
  {
    var chunked;
    chunked, cuts := C.Split(m, C.CHUNK_CAPS, C.OVERLAP);
    if chunked.Err? {
      return Err(chunked.error), [], cuts;
    }
    ghost var pieces := PiecesOf(m.utterances);
    var ok, windows;
    ok, windows, ranges := WindowsOfChunks(m, blank, promptFits, header, chunked.value, pieces, cuts);
    if !ok {
      return Err("An utterance is not its exact line, or exceeds the product input cap"), ranges, cuts;
    }
    forall i | 0 <= i < |m.utterances| ensures Convertible(m, blank, m.utterances[i]) {
      EachChecked(m, blank, cuts, chunked.value, i);
    }
    return Ok(windows), ranges, cuts;
  }

  lemma CleanPart(us: seq<Utterance>, left: nat, right: nat)
    requires CleanHeads(us) && left <= right <= |us|
    ensures CleanHeads(us[left..right])
  {
    forall i | 0 <= i < right - left ensures '\n' !in Head(us[left..right][i]) {
      assert us[left..right][i] == us[left + i];
    }
  }

  lemma PlacedLines(chosen: seq<Utterance>, chunk: Range, i: nat, j: nat)
    requires CleanHeads(chosen) && i < j <= |chosen| == chunk.right - chunk.left
    ensures Placed(TextsOf(chosen), chunk)(Range(i + chunk.left, j + chunk.left)) == Converted(chosen[i..j])
  {
    SectionIsLines(chosen, i, j);
    PieceAt(TextsOf(chosen), chunk, i, j);
  }

  lemma SliceFrom<T>(s: seq<T>, a: nat, b: nat, i: nat, j: nat)
    requires a <= b <= |s| && i <= j <= b - a
    ensures s[a..b][i..j] == s[i + a..j + a]
  {
    SliceOfSlice(s, a, b, i, j);
  }

  /** With heads on one line a window holds whole lines and nothing else. */
  lemma CleanPiece(us: seq<Utterance>, chunk: Range, i: nat, j: nat)
    requires CleanHeads(us) && chunk.left <= chunk.right <= |us| && i < j <= chunk.right - chunk.left
    ensures PieceOf(us, chunk)(Range(i + chunk.left, j + chunk.left)) == Converted(us[i + chunk.left..j + chunk.left])
  {
    var chosen := us[chunk.left..chunk.right];
    CleanPart(us, chunk.left, chunk.right);
    PlacedLines(chosen, chunk, i, j);
    assert chosen[i..j] == us[i + chunk.left..j + chunk.left] by { SliceFrom(us, chunk.left, chunk.right, i, j); }
  }

  /** Not its line, too long for a chunk, or too long for a window, each by itself alone. */
  ghost predicate UnfitAlone(m: Meeting, blank: string -> bool, promptFits: string -> bool, header: string, i: nat)
    requires i < |m.utterances|
  {
    || !C.FitsAlone(m, C.CHUNK_CAPS, i)
    || !Convertible(m, blank, m.utterances[i])
    || !Fits(promptFits, header + Converted(m.utterances[i..i + 1]))
  }

  lemma CleanUnfit(m: Meeting, blank: string -> bool, promptFits: string -> bool, header: string, chunk: Range, i: nat,
                   k: nat)
    requires CleanHeads(m.utterances) && C.EachFits(m, C.CHUNK_CAPS)
    requires chunk.left <= chunk.right <= |m.utterances| && k < chunk.right - chunk.left && i == k + chunk.left
    ensures Unfit(m, blank, promptFits, header, PieceOf(m.utterances, chunk), i)
            <==> UnfitAlone(m, blank, promptFits, header, i)
  {
    CleanPiece(m.utterances, chunk, k, k + 1);
    assert Range(k + chunk.left, k + 1 + chunk.left) == Range(i, i + 1);
  }

  /** And then whether a meeting has anything unfit does not depend on its chunks. */
  lemma CleanUnfitIff(m: Meeting, blank: string -> bool, promptFits: string -> bool, header: string, cuts: seq<Range>)
    requires CleanHeads(m.utterances)
    requires C.EachFits(m, C.CHUNK_CAPS) ==> Complete(|m.utterances|, C.OVERLAP, cuts)
    ensures SomeUnfit(m, blank, promptFits, header, PiecesOf(m.utterances), cuts)
            <==> exists i :: 0 <= i < |m.utterances| && UnfitAlone(m, blank, promptFits, header, i)
  {
    if C.EachFits(m, C.CHUNK_CAPS) {
      forall c | 0 <= c < |cuts| && ChunkUnfit(m, blank, promptFits, header, PieceOf(m.utterances, cuts[c]), cuts[c])
        ensures exists i :: 0 <= i < |m.utterances| && UnfitAlone(m, blank, promptFits, header, i)
      {
        var i :| cuts[c].left <= i < cuts[c].right
                 && Unfit(m, blank, promptFits, header, PieceOf(m.utterances, cuts[c]), i);
        CleanUnfit(m, blank, promptFits, header, cuts[c], i, i - cuts[c].left);
      }
      forall i | 0 <= i < |m.utterances| && UnfitAlone(m, blank, promptFits, header, i)
        ensures SomeUnfit(m, blank, promptFits, header, PiecesOf(m.utterances), cuts)
      {
        HeldUnfit(m, blank, promptFits, header, cuts, i);
      }
    } else {
      var i :| 0 <= i < |m.utterances| && !C.FitsAlone(m, C.CHUNK_CAPS, i);
      assert UnfitAlone(m, blank, promptFits, header, i);
    }
  }

  lemma HeldUnfit(m: Meeting, blank: string -> bool, promptFits: string -> bool, header: string, cuts: seq<Range>,
                  i: nat)
    requires CleanHeads(m.utterances) && C.EachFits(m, C.CHUNK_CAPS) && Complete(|m.utterances|, C.OVERLAP, cuts)
    requires i < |m.utterances| && UnfitAlone(m, blank, promptFits, header, i)
    ensures SomeUnfit(m, blank, promptFits, header, PiecesOf(m.utterances), cuts)
  {
    CompleteCovers(|m.utterances|, C.OVERLAP, cuts, i);
    var c :| 0 <= c < |cuts| && Holds(cuts[c], i);
    CleanUnfit(m, blank, promptFits, header, cuts[c], i, i - cuts[c].left);
    assert PiecesOf(m.utterances)(cuts[c]) == PieceOf(m.utterances, cuts[c]);
    assert ChunkUnfit(m, blank, promptFits, header, PieceOf(m.utterances, cuts[c]), cuts[c]);
  }

  lemma WindowKeeps(m: Meeting, promptFits: string -> bool, header: string, piece: Piece, w: Window, r: Range,
                    chunk: Range, i: nat)
    requires WindowOf(m, promptFits, header, piece, w, r, chunk) && Holds(r, i)
    ensures i < |m.utterances| && i - r.left < |w.mapping| && BodyOf(m.utterances[i], w.mapping[i - r.left])
  {
    assert BodyOf(m.utterances[r.left + (i - r.left)], w.mapping[i - r.left]);
  }

  /** So every utterance of the meeting stands whole in some window. */
  lemma EveryUtteranceKept(
      m: Meeting, promptFits: string -> bool, header: string, pieces: Range -> Piece, cuts: seq<Range>,
      windows: seq<Window>, ranges: seq<Range>, i: nat)
    requires AllCollected(WindowTest(m, promptFits, header, pieces, cuts), |m.utterances|, windows, ranges)
             && i < |m.utterances|
    ensures exists k, j :: 0 <= k < |windows| && 0 <= j < |windows[k].mapping| &&
                           BodyOf(m.utterances[i], windows[k].mapping[j])
  {
    var k := NoGapsCover(|m.utterances|, ranges, i);
    var r := Range(ranges[k].left + 0, ranges[k].right + 0);
    assert WindowTest(m, promptFits, header, pieces, cuts)(windows[k], r);
    var c :| 0 <= c < |cuts| && WindowOf(m, promptFits, header, pieces(cuts[c]), windows[k], r, cuts[c]);
    WindowKeeps(m, promptFits, header, pieces(cuts[c]), windows[k], r, cuts[c], i);
  }
}
