/** Carrying evidence found in a window back to the original text, and the other way. */
module Spans {
  import opened Basics
  import opened Transcript

  /** One unchanged utterance body: where it stands in the window, and where in the original text. */
  datatype Item = Item(segment: string, speaker: string, start: int, end: int, originalStart: int, originalEnd: int)

  datatype Window = Window(offset: nat, text: string, mapping: seq<Item>)

  datatype Span = Span(start: int, end: int)

  predicate Contains(item: Item, start: int, end: int) {
    item.start <= start < end <= item.end
  }

  predicate ContainsOriginal(item: Item, start: int, end: int) {
    item.originalStart <= start < end <= item.originalEnd
  }

  /** The first body that contains the span decides; a span outside every body is refused. */
  function OriginalSpan(mapping: seq<Item>, start: int, end: int): Option<Span> {
    if mapping == [] then None
    else if Contains(mapping[0], start, end) then
      Some(Span(mapping[0].originalStart + start - mapping[0].start, mapping[0].originalStart + end - mapping[0].start))
    else OriginalSpan(mapping[1..], start, end)
  }

  /** Where a range of the original text stands in a window, if the window holds it. */
  function WindowSpan(mapping: seq<Item>, start: int, end: int): Option<Span> {
    if mapping == [] then None
    else if ContainsOriginal(mapping[0], start, end) then
      Some(Span(mapping[0].start + start - mapping[0].originalStart, mapping[0].start + end - mapping[0].originalStart))
    else WindowSpan(mapping[1..], start, end)
  }

  /** Bodies stand in both texts in the same order, apart from each other, with the same characters. */
  predicate ItemFaithful(m: Meeting, text: string, item: Item) {
    && 0 <= item.start <= item.end <= |text|
    && 0 <= item.originalStart <= item.originalEnd <= |m.text|
    && text[item.start..item.end] == m.text[item.originalStart..item.originalEnd]
  }

  ghost predicate Ordered(mapping: seq<Item>) {
    forall j, k :: 0 <= j < k < |mapping| ==>
                     mapping[j].end < mapping[k].start && mapping[j].originalEnd < mapping[k].originalStart
  }

  ghost predicate Faithful(m: Meeting, w: Window) {
    && Ordered(w.mapping)
    && forall k :: 0 <= k < |w.mapping| ==> ItemFaithful(m, w.text, w.mapping[k])
  }

  lemma {:induction false} OriginalSpanFrom(mapping: seq<Item>, start: int, end: int, k: nat)
    requires k < |mapping| && Contains(mapping[k], start, end)
    requires forall j :: 0 <= j < k ==> !Contains(mapping[j], start, end)
    ensures OriginalSpan(mapping, start, end)
            == Some(Span(mapping[k].originalStart + start - mapping[k].start,
                mapping[k].originalStart + end - mapping[k].start))
  {
    if k > 0 {
      assert !Contains(mapping[0], start, end);
      OriginalSpanFrom(mapping[1..], start, end, k - 1);
    }
  }

  lemma {:induction false} WindowSpanFrom(mapping: seq<Item>, start: int, end: int, k: nat)
    requires k < |mapping| && ContainsOriginal(mapping[k], start, end)
    requires forall j :: 0 <= j < k ==> !ContainsOriginal(mapping[j], start, end)
    ensures WindowSpan(mapping, start, end)
            == Some(Span(mapping[k].start + start - mapping[k].originalStart,
                mapping[k].start + end - mapping[k].originalStart))
  {
    if k > 0 {
      assert !ContainsOriginal(mapping[0], start, end);
      WindowSpanFrom(mapping[1..], start, end, k - 1);
    }
  }

  lemma {:induction false} OriginalSpanFound(mapping: seq<Item>, start: int, end: int) returns (k: nat)
    requires OriginalSpan(mapping, start, end).Some?
    ensures k < |mapping| && Contains(mapping[k], start, end)
    ensures forall j :: 0 <= j < k ==> !Contains(mapping[j], start, end)
  {
    if Contains(mapping[0], start, end) {
      k := 0;
    } else {
      k := OriginalSpanFound(mapping[1..], start, end);
      k := k + 1;
    }
  }

  lemma {:induction false} WindowSpanFound(mapping: seq<Item>, start: int, end: int) returns (k: nat)
    requires WindowSpan(mapping, start, end).Some?
    ensures k < |mapping| && ContainsOriginal(mapping[k], start, end)
    ensures forall j :: 0 <= j < k ==> !ContainsOriginal(mapping[j], start, end)
  {
    if ContainsOriginal(mapping[0], start, end) {
      k := 0;
    } else {
      k := WindowSpanFound(mapping[1..], start, end);
      k := k + 1;
    }
  }

  /** A span is carried back exactly when it is nonempty and lies inside one body, which is then unique. */
  lemma {:induction false} MappedIffInsideOneBody(m: Meeting, w: Window, start: int, end: int)
    requires Faithful(m, w)
    ensures OriginalSpan(w.mapping, start, end).Some? <==>
            exists k :: 0 <= k < |w.mapping| && Contains(w.mapping[k], start, end)
    ensures forall j, k :: (0 <= j < |w.mapping| && 0 <= k < |w.mapping|
                            && Contains(w.mapping[j], start, end) && Contains(w.mapping[k], start, end)) ==> j == k
  {
    if OriginalSpan(w.mapping, start, end).Some? {
      var k := OriginalSpanFound(w.mapping, start, end);
    }
    if k :| 0 <= k < |w.mapping| && Contains(w.mapping[k], start, end) {
      OriginalSpanFrom(w.mapping, start, end, k);
    }
  }

  /** Evidence round trip: the original text at the mapped span is the window text at the span. */
  lemma {:induction false} EvidenceRoundTrip(m: Meeting, w: Window, start: int, end: int)
    requires Faithful(m, w) && OriginalSpan(w.mapping, start, end).Some?
    ensures var o := OriginalSpan(w.mapping, start, end).value;
            && 0 <= start < end <= |w.text| && 0 <= o.start < o.end <= |m.text|
            && m.text[o.start..o.end] == w.text[start..end]
            && WindowSpan(w.mapping, o.start, o.end) == Some(Span(start, end))
  {
    var k := OriginalSpanFound(w.mapping, start, end);
    OriginalSpanFrom(w.mapping, start, end, k);
    var item, o := w.mapping[k], OriginalSpan(w.mapping, start, end).value;
    BodyLength(m, w.text, item);
    WindowSpanFrom(w.mapping, o.start, o.end, k);
    PartOfBody(m, w.text, item, start, end);
  }

  lemma BodyLength(m: Meeting, text: string, item: Item)
    requires ItemFaithful(m, text, item)
    ensures item.end - item.start == item.originalEnd - item.originalStart
  {
    assert |text[item.start..item.end]| == |m.text[item.originalStart..item.originalEnd]|;
  }

  lemma PartOfBody(m: Meeting, text: string, item: Item, start: int, end: int)
    requires ItemFaithful(m, text, item) && Contains(item, start, end)
    ensures var delta := item.originalStart - item.start;
            0 <= start + delta && end + delta <= |m.text| && m.text[start + delta..end + delta] == text[start..end]
  {
    BodyLength(m, text, item);
    SliceOfSlice(text, item.start, item.end, start - item.start, end - item.start);
    SliceOfSlice(m.text, item.originalStart, item.originalEnd, start - item.start, end - item.start);
  }

  /** Placing an original range in a window and carrying it back gives the same range. */
  lemma {:induction false} OriginalRoundTrip(m: Meeting, w: Window, start: int, end: int)
    requires Faithful(m, w) && WindowSpan(w.mapping, start, end).Some?
    ensures var s := WindowSpan(w.mapping, start, end).value;
            OriginalSpan(w.mapping, s.start, s.end) == Some(Span(start, end))
  {
    var k := WindowSpanFound(w.mapping, start, end);
    WindowSpanFrom(w.mapping, start, end, k);
    BodyLength(m, w.text, w.mapping[k]);
    var s := WindowSpan(w.mapping, start, end).value;
    OriginalSpanFrom(w.mapping, s.start, s.end, k);
  }

  /** Within a window, different spans never share their original. */
  lemma OriginalSpanInjective(m: Meeting, w: Window, a: Span, b: Span)
    requires Faithful(m, w) && OriginalSpan(w.mapping, a.start, a.end).Some?
    requires OriginalSpan(w.mapping, a.start, a.end) == OriginalSpan(w.mapping, b.start, b.end)
    ensures a == b
  {
    EvidenceRoundTrip(m, w, a.start, a.end);
    EvidenceRoundTrip(m, w, b.start, b.end);
  }

  /** The same original range, found in two different windows, is carried back to the same place. */
  lemma {:induction false} SameRangeInTwoWindows(m: Meeting, v: Window, w: Window, start: int, end: int)
    requires Faithful(m, v) && Faithful(m, w)
    requires WindowSpan(v.mapping, start, end).Some? && WindowSpan(w.mapping, start, end).Some?
    ensures var a, b := WindowSpan(v.mapping, start, end).value, WindowSpan(w.mapping, start, end).value;
            OriginalSpan(v.mapping, a.start, a.end) == OriginalSpan(w.mapping, b.start, b.end) == Some(Span(start, end))
  {
    OriginalRoundTrip(m, v, start, end);
    OriginalRoundTrip(m, w, start, end);
  }
}
