/**
 Rewriting each chunk's utterances under new headers, then cutting the result again wherever a window with its
 metadata header would exceed the product's input caps. The size of the prompt built from a window is any predicate.
 */
module SpeakerWindows {
  import opened Basics
  import opened Transcript
  import opened Spans
  import C = Chunks

  const WINDOW_CAPS := C.Caps(16000, 24000)

  function Head(u: Utterance): string {
    "[" + u.stamp + "] " + u.speaker + ": "
  }

  function ConvertedLine(u: Utterance): string {
    Head(u) + u.body + "\n"
  }

  function Converted(us: seq<Utterance>): string {
    Joined(ConvertedLine, us)
  }

  /** The checks made before an utterance is rewritten. */
  predicate Convertible(m: Meeting, blank: string -> bool, u: Utterance) {
    C.Sliced(m.text, u.charStart, u.charEnd) == Line(u) && '\n' !in u.body && !blank(u.body)
  }

  type LineCheck = Utterance -> bool

  function ConversionCheck(m: Meeting, blank: string -> bool): LineCheck {
    (u: Utterance) => Convertible(m, blank, u)
  }

  // ----- Rewriting one chunk

  /** The item recorded for an utterance whose converted line starts at `lineStart`. */
  function ItemOf(u: Utterance, lineStart: nat): Item {
    var start := lineStart + |Head(u)|;
    Item(u.segment, u.speaker, start, start + |u.body|, u.charStart + |Prefix(u)|, u.charEnd - 1)
  }

  /** An utterance's converted line stands in `text` at `at`, with its item. */
  predicate LineAt(text: string, u: Utterance, at: nat, item: Item) {
    && at + |ConvertedLine(u)| <= |text|
    && text[at..at + |ConvertedLine(u)|] == ConvertedLine(u)
    && item == ItemOf(u, at)
  }

  /** The text is the header and then the lines of `us`, one after the other, starting at `lines`. */
  ghost predicate Laid(header: string, us: seq<Utterance>, lines: seq<nat>, text: string, mapping: seq<Item>) {
    && header <= text
    && |lines| == |mapping| == |us|
    && (forall i :: 0 <= i < |us| ==> |header| <= lines[i] && LineAt(text, us[i], lines[i], mapping[i]))
    && (forall i, j :: 0 <= i < j < |us| ==> lines[i] + |ConvertedLine(us[i])| <= lines[j])
    && text == header + Converted(us)
  }

  lemma LineKept(text: string, more: string, u: Utterance, at: nat, item: Item)
    requires LineAt(text, u, at, item)
    ensures LineAt(text + more, u, at, item)
  {
    EarlierSlice(text, more, at, at + |ConvertedLine(u)|);
  }

  lemma LineAdded(text: string, u: Utterance)
    ensures LineAt(text + ConvertedLine(u), u, |text|, ItemOf(u, |text|))
  {
  }

  lemma ConvertedOneMore(header: string, us: seq<Utterance>, u: Utterance)
    ensures header + Converted(us) + ConvertedLine(u) == header + Converted(us + [u])
  {
    assert (us + [u])[..|us|] == us;
  }

  lemma LayOneMore(header: string, us: seq<Utterance>, u: Utterance, lines: seq<nat>, text: string, mapping: seq<Item>)
    requires Laid(header, us, lines, text, mapping)
    ensures Laid(header, us + [u], lines + [|text|], text + ConvertedLine(u), mapping + [ItemOf(u, |text|)])
  {
    var us', text', lines', mapping' := us + [u], text + ConvertedLine(u), lines + [|text|],
        mapping + [ItemOf(u, |text|)];
    ConvertedOneMore(header, us, u);
    LineAdded(text, u);
    forall i | 0 <= i < |us'| ensures |header| <= lines'[i] && LineAt(text', us'[i], lines'[i], mapping'[i]) {
      if i < |us| {
        LineKept(text, ConvertedLine(u), us[i], lines[i], mapping[i]);
      }
    }
  }

  /** Each line starts where the lines before it end. */
  ghost predicate Consecutive(header: string, us: seq<Utterance>, lines: seq<nat>) {
    |lines| == |us| && forall i :: 0 <= i < |us| ==> lines[i] == |header| + |Converted(us[..i])|
  }

  lemma ConsecutiveOneMore(header: string, us: seq<Utterance>, u: Utterance, lines: seq<nat>)
    requires Consecutive(header, us, lines)
    ensures Consecutive(header, us + [u], lines + [|header + Converted(us)|])
  {
    forall i | 0 <= i <= |us|
      ensures (lines + [|header + Converted(us)|])[i] == |header| + |Converted((us + [u])[..i])|
    {
      assert (us + [u])[..i] == us[..i];
      assert us[..|us|] == us;
    }
  }

  /** Rewriting one utterance behind what is already there. */
  method Append(u: Utterance, text: string, mapping: seq<Item>) returns (text': string, mapping': seq<Item>)
    requires u.charEnd > 0
    ensures text' == text + ConvertedLine(u) && mapping' == mapping + [ItemOf(u, |text|)]
  {
    text' := text + Head(u);
    var start := |text'|;
    text' := text' + (u.body + "\n");
    mapping' := mapping + [Item(u.segment, u.speaker, start, start + |u.body|, u.charStart + |Prefix(u)|,
        u.charEnd - 1)];
    assert text' == text + ConvertedLine(u);
  }

  predicate StartsInside(chunk: C.Chunk, u: Utterance) {
    chunk.offset <= u.charStart < chunk.offset + |chunk.text|
  }

  /** The chunk's offsets single out exactly the utterances `left..right`. */
  ghost predicate Selects(us: seq<Utterance>, chunk: C.Chunk, left: nat, right: nat) {
    && left < right <= |us|
    && forall i :: 0 <= i < |us| ==> us[i].charEnd > 0 && (StartsInside(chunk, us[i]) <==> left <= i < right)
  }

  lemma CutSelects(m: Meeting, chunk: C.Chunk, left: nat, right: nat)
    requires Tiled(m) && left < right <= |m.utterances|
    requires chunk == C.Chunk(m.utterances[left].charStart, C.Slice(m, left, right))
    ensures Selects(m.utterances, chunk, left, right)
  {
    forall i | 0 <= i < |m.utterances| ensures StartsInside(chunk, m.utterances[i]) <==> left <= i < right {
      C.SelectedByOffset(m, left, right, i);
    }
  }

  /** Those of the first `n` utterances that start inside the chunk. */
  function Chosen(us: seq<Utterance>, chunk: C.Chunk, n: nat): seq<Utterance>
    requires n <= |us|
  {
    if n == 0 then []
    else Chosen(us, chunk, n - 1) + if StartsInside(chunk, us[n - 1]) then [us[n - 1]] else []
  }

  lemma {:induction false} ChosenIsRange(us: seq<Utterance>, chunk: C.Chunk, left: nat, right: nat, n: nat)
    requires Selects(us, chunk, left, right) && n <= |us|
    ensures Chosen(us, chunk, n) == if n <= left then [] else us[left..if n <= right then n else right]
  {
    if n > 0 {
      ChosenIsRange(us, chunk, left, right, n - 1);
      assert StartsInside(chunk, us[n - 1]) <==> left <= n - 1 < right;
      if left < n <= right {
        assert us[left..n] == us[left..n - 1] + [us[n - 1]];
      }
    }
  }

  predicate PassingUpTo(us: seq<Utterance>, passes: LineCheck, chunk: C.Chunk, n: nat)
    requires n <= |us|
  {
    forall i :: 0 <= i < n && StartsInside(chunk, us[i]) ==> passes(us[i])
  }

  predicate AllPassing(us: seq<Utterance>, passes: LineCheck, chunk: C.Chunk) {
    PassingUpTo(us, passes, chunk, |us|)
  }

  /** The header and the lines of those chosen among the first `n` utterances. */
  ghost predicate LaidUpTo(us: seq<Utterance>, header: string, chunk: C.Chunk, n: nat, lines: seq<nat>, text: string,
                           mapping: seq<Item>)
    requires n <= |us|
  {
    Laid(header, Chosen(us, chunk, n), lines, text, mapping) && Consecutive(header, Chosen(us, chunk, n), lines)
  }

  lemma LaidNothing(us: seq<Utterance>, header: string, chunk: C.Chunk)
    ensures LaidUpTo(us, header, chunk, 0, [], header, [])
  {
    assert header == header + Converted([]);
  }

  lemma LaidOneMore(us: seq<Utterance>, header: string, chunk: C.Chunk, n: nat, lines: seq<nat>, text: string,
                    mapping: seq<Item>)
    requires n < |us| && LaidUpTo(us, header, chunk, n, lines, text, mapping)
    ensures if StartsInside(chunk, us[n])
            then LaidUpTo(us, header, chunk, n + 1, lines + [|text|], text + ConvertedLine(us[n]),
                mapping + [ItemOf(us[n], |text|)])
            else LaidUpTo(us, header, chunk, n + 1, lines, text, mapping)
  {
    if StartsInside(chunk, us[n]) {
      LayOneMore(header, Chosen(us, chunk, n), us[n], lines, text, mapping);
      ConsecutiveOneMore(header, Chosen(us, chunk, n), us[n], lines);
    } else {
      assert Chosen(us, chunk, n + 1) == Chosen(us, chunk, n);
    }
  }

  /** Rewriting one utterance, unless it starts outside the chunk. */
  method ConvertOne(us: seq<Utterance>, header: string, chunk: C.Chunk, i: nat, text: string, mapping: seq<Item>,
                    ghost lines: seq<nat>)
      returns (text': string, mapping': seq<Item>, ghost lines': seq<nat>)
    requires i < |us| && us[i].charEnd > 0
    requires LaidUpTo(us, header, chunk, i, lines, text, mapping)
    ensures LaidUpTo(us, header, chunk, i + 1, lines', text', mapping')
  {
    LaidOneMore(us, header, chunk, i, lines, text, mapping);
    text', mapping', lines' := text, mapping, lines;
    if StartsInside(chunk, us[i]) {
      lines' := lines + [|text|];
      text', mapping' := Append(us[i], text, mapping);
    }
  }

  /** Rewriting the utterances that start inside the chunk; one that fails its check refuses the meeting. */
  method Convert(us: seq<Utterance>, passes: LineCheck, header: string, chunk: C.Chunk)
      returns (ok: bool, text: string, mapping: seq<Item>, ghost lines: seq<nat>)
    requires forall i :: 0 <= i < |us| ==> us[i].charEnd > 0
    ensures ok <==> AllPassing(us, passes, chunk)
    ensures ok ==> LaidUpTo(us, header, chunk, |us|, lines, text, mapping)
  {
    ok, text, mapping, lines := true, header, [], [];
    LaidNothing(us, header, chunk);
    for i := 0 to |us|
      invariant PassingUpTo(us, passes, chunk, i)
      invariant LaidUpTo(us, header, chunk, i, lines, text, mapping)
    {
      if StartsInside(chunk, us[i]) && !passes(us[i]) {
        return false, text, mapping, lines;
      }
      text, mapping, lines := ConvertOne(us, header, chunk, i, text, mapping, lines);
    }
  }

  /** A line put together from a head and a body can be read back in place. */
  lemma LineParts(text: string, a: nat, head: string, body: string)
    requires a + |head| + |body| + 1 <= |text| && text[a..a + |head| + |body| + 1] == head + body + "\n"
    ensures text[a..a + |head|] == head
    ensures text[a + |head|..a + |head| + |body|] == body
    ensures text[a + |head| + |body|] == '\n'
  {
    var line := head + body + "\n";
    SliceOfSlice(text, a, a + |line|, 0, |head|);
    SliceOfSlice(text, a, a + |line|, |head|, |head| + |body|);
    assert line[0..|head|] == head && line[|head|..|head| + |body|] == body;
    assert text[a + |head| + |body|] == text[a..a + |line|][|head| + |body|];
  }

  // ----- Where each converted line starts

  /** The index just after the last line end before `limit`, or 0. */
  function AfterLastNewline(text: string, limit: nat): (r: nat)
    requires limit <= |text|
    ensures r <= limit && (r > 0 ==> text[r - 1] == '\n')
    ensures forall k :: r <= k < limit ==> text[k] != '\n'
  {
    if limit == 0 then 0 else if text[limit - 1] == '\n' then limit else AfterLastNewline(text, limit - 1)
  }

  /** How much of an utterance's head stands before the head's last line: nothing when it is on one line. */
  function HeadBreak(u: Utterance): (r: nat)
    ensures r <= |Head(u)| && (r == 0 <==> '\n' !in Head(u))
  {
    AfterLastNewline(Head(u), |Head(u)|)
  }

  /** Right behind a line end the search finds the start of the head's last line. */
  lemma {:induction false} StartFound(text: string, at: nat, end: nat, head: string)
    requires 0 < at <= end <= |text| && text[at - 1] == '\n' && text[at..end] == head
    ensures AfterLastNewline(text, end) == at + AfterLastNewline(head, |head|)
  {
    var b := AfterLastNewline(head, |head|);
    forall k | at <= k < end ensures text[k] == head[k - at] {
      assert text[k] == text[at..end][k - at];
    }
    assert text[at + b - 1] == '\n';
  }

  /** Each section starts after the previous body and no later than its own. */
  ghost predicate StartsSeparate(header: string, mapping: seq<Item>, starts: seq<nat>) {
    && |starts| == |mapping|
    && (starts != [] ==> starts[0] == |header|)
    && (forall i :: 0 <= i < |starts| ==> |header| <= starts[i] <= mapping[i].start)
    && (forall i, j :: 0 <= i < j < |starts| ==> mapping[i].end < starts[j])
  }

  /** What stands at one item: its head, its body, and the line end after it. */
  lemma ItemInPlace(text: string, u: Utterance, at: nat, item: Item)
    requires LineAt(text, u, at, item)
    ensures at + |Head(u)| == item.start <= item.end < |text| && item.end + 1 == at + |ConvertedLine(u)|
    ensures text[at..item.start] == Head(u)
    ensures text[item.start..item.end] == u.body && text[item.end] == '\n'
  {
    LineParts(text, at, Head(u), u.body);
  }

  /** Bodies stand behind the header, in order, and each is followed by a line end. */
  ghost predicate Separated(header: string, text: string, mapping: seq<Item>) {
    && (forall i :: 0 <= i < |mapping| ==>
          |header| <= mapping[i].start <= mapping[i].end < |text| && text[mapping[i].end] == '\n')
    && (forall i, j :: 0 <= i < j < |mapping| ==> mapping[i].end < mapping[j].start)
  }

  lemma LaidSeparated(header: string, us: seq<Utterance>, lines: seq<nat>, text: string, mapping: seq<Item>)
    requires Laid(header, us, lines, text, mapping)
    ensures Separated(header, text, mapping)
  {
    forall i | 0 <= i < |us|
      ensures |header| <= mapping[i].start <= mapping[i].end < |text| && text[mapping[i].end] == '\n'
      ensures lines[i] <= mapping[i].start && mapping[i].end < lines[i] + |ConvertedLine(us[i])|
    {
      ItemInPlace(text, us[i], lines[i], mapping[i]);
    }
  }

  /** The starts of the first sections, found one by one. */
  ghost predicate StartsUpTo(header: string, text: string, mapping: seq<Item>, starts: seq<nat>)
    requires forall i :: 0 <= i < |mapping| ==> 0 <= mapping[i].start <= |text|
  {
    && 1 <= |starts| <= |mapping| && starts[0] == |header|
    && (forall k :: 0 <= k < |starts| ==> |header| <= starts[k] <= mapping[k].start)
    && (forall j, k :: 0 <= j < k < |starts| ==> mapping[j].end < starts[k])
    && (forall k :: 1 <= k < |starts| ==> starts[k] == AfterLastNewline(text, mapping[k].start))
  }

  lemma {:induction false} StartsOneMore(header: string, text: string, mapping: seq<Item>, starts: seq<nat>)
    requires Separated(header, text, mapping) && StartsUpTo(header, text, mapping, starts) && |starts| < |mapping|
    ensures StartsUpTo(header, text, mapping, starts + [AfterLastNewline(text, mapping[|starts|].start)])
  {
    var i := |starts|;
    assert mapping[i - 1].end < AfterLastNewline(text, mapping[i].start);
    forall j | 0 <= j < i ensures mapping[j].end < AfterLastNewline(text, mapping[i].start) {
      if j < i - 1 { assert mapping[j].end < mapping[i - 1].start; }
    }
  }

  method LineStarts(header: string, text: string, mapping: seq<Item>) returns (starts: seq<nat>)
    requires Separated(header, text, mapping) && mapping != []
    ensures |starts| == |mapping| && StartsUpTo(header, text, mapping, starts)
  {
    starts := [|header|];
    for i := 1 to |mapping|
      invariant |starts| == i && StartsUpTo(header, text, mapping, starts)
    {
      StartsOneMore(header, text, mapping, starts);
      starts := starts + [AfterLastNewline(text, mapping[i].start)];
    }
  }

  // ----- Where each section starts

  ghost predicate StartsFound(header: string, text: string, mapping: seq<Item>, starts: seq<nat>) {
    && |starts| == |mapping| && (starts != [] ==> starts[0] == |header|)
    && forall i :: 1 <= i < |mapping| ==>
         0 <= mapping[i].start <= |text| && starts[i] == AfterLastNewline(text, mapping[i].start)
  }

  lemma NextLine(header: string, us: seq<Utterance>, lines: seq<nat>, i: nat)
    requires Consecutive(header, us, lines) && 1 <= i < |us|
    ensures lines[i - 1] + |ConvertedLine(us[i - 1])| == lines[i]
  {
    assert us[..i][..i - 1] == us[..i - 1];
  }

  /** The first section starts with its head, every other one with the last line of its head. */
  function SkipOf(us: seq<Utterance>, i: nat): (r: nat)
    requires i < |us|
    ensures r <= |Head(us[i])|
  {
    if i == 0 then 0 else HeadBreak(us[i])
  }

  lemma LineEnds(text: string, u: Utterance, at: nat, item: Item, next: nat)
    requires LineAt(text, u, at, item) && next == at + |ConvertedLine(u)|
    ensures 0 < next <= |text| && text[next - 1] == '\n'
  {
    ItemInPlace(text, u, at, item);
    assert item.end == next - 1;
  }

  lemma LaidAt(header: string, us: seq<Utterance>, lines: seq<nat>, text: string, mapping: seq<Item>, i: nat)
    requires Laid(header, us, lines, text, mapping) && i < |us|
    ensures |lines| == |mapping| == |us| && LineAt(text, us[i], lines[i], mapping[i])
  {
  }

  /** Behind a head that follows a line end, the search finds the start of its last line. */
  lemma {:induction false} StartBehindLine(text: string, before: Utterance, u: Utterance, previous: nat, at: nat,
                                           last: Item, item: Item)
    requires LineAt(text, before, previous, last) && at == previous + |ConvertedLine(before)|
    requires LineAt(text, u, at, item)
    ensures 0 <= item.start <= |text| && AfterLastNewline(text, item.start) == at + HeadBreak(u)
  {
    LineEnds(text, before, previous, last, at);
    ItemInPlace(text, u, at, item);
    StartFound(text, at, item.start, Head(u));
  }

  /** Where the sections start: at the lines, but for what the heads have before their last lines. */
  ghost predicate StartsExact(header: string, us: seq<Utterance>, starts: seq<nat>) {
    && |starts| == |us|
    && forall i :: 0 <= i < |us| ==> starts[i] == |header| + |Converted(us[..i])| + SkipOf(us, i)
  }

  lemma SectionStart(
      header: string, us: seq<Utterance>, lines: seq<nat>, text: string, mapping: seq<Item>, starts: seq<nat>, i: nat)
    requires Laid(header, us, lines, text, mapping) && Consecutive(header, us, lines)
    requires StartsFound(header, text, mapping, starts) && 0 < i < |us|
    ensures |starts| == |us| && starts[i] == |header| + |Converted(us[..i])| + SkipOf(us, i)
  {
    LaidAt(header, us, lines, text, mapping, i - 1);
    LaidAt(header, us, lines, text, mapping, i);
    NextLine(header, us, lines, i);
    StartBehindLine(text, us[i - 1], us[i], lines[i - 1], lines[i], mapping[i - 1], mapping[i]);
  }

  lemma SectionStarts(
      header: string, us: seq<Utterance>, lines: seq<nat>, text: string, mapping: seq<Item>, starts: seq<nat>)
    requires Laid(header, us, lines, text, mapping) && Consecutive(header, us, lines)
    requires StartsFound(header, text, mapping, starts)
    ensures StartsExact(header, us, starts)
  {
    forall i | 0 <= i < |us| ensures starts[i] == |header| + |Converted(us[..i])| + SkipOf(us, i) {
      if i > 0 {
        SectionStart(header, us, lines, text, mapping, starts, i);
      } else {
        assert us[..0] == [];
      }
    }
  }
}
