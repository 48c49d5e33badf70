/** The product's parser reads every window of a meeting back as it was built. */
module WindowReading {
  import opened Basics
  import opened Ranges
  import opened Transcript
  import opened Spans
  import opened SpeakerWindows
  import opened WindowSplitting
  import opened MeetingWindows
  import opened TimestampedText
  import C = Chunks
  import D = Deduplicate

  /** The header is one message, on a line of its own. */
  predicate HeaderReads(rules: Rules, header: string, head: Message) {
    && header != [] && header[|header| - 1] == '\n' && '\n' !in header[..|header| - 1]
    && ReadLine(rules, header[..|header| - 1]) == Some(head)
  }

  ghost predicate AllReadable(rules: Rules, m: Meeting) {
    rules.white(' ') && forall i :: 0 <= i < |m.utterances| ==> Readable(rules, m.utterances[i])
  }

  lemma HeadIsClean(rules: Rules, u: Utterance)
    requires Readable(rules, u)
    ensures '\n' !in Head(u)
  {
  }

  lemma ReadableIsClean(rules: Rules, m: Meeting)
    requires AllReadable(rules, m)
    ensures CleanHeads(m.utterances)
  {
    forall i | 0 <= i < |m.utterances| ensures '\n' !in Head(m.utterances[i]) {
      HeadIsClean(rules, m.utterances[i]);
    }
  }

  lemma CleanRange(us: seq<Utterance>, chunk: Range, r: Range, i: nat, j: nat)
    requires CleanHeads(us) && chunk.left <= r.left < r.right <= chunk.right <= |us|
    requires i + chunk.left == r.left && j + chunk.left == r.right
    ensures PieceOf(us, chunk)(r) == Converted(us[r.left..r.right])
  {
    CleanPiece(us, chunk, i, j);
    assert Range(i + chunk.left, j + chunk.left) == r;
    assert us[i + chunk.left..j + chunk.left] == us[r.left..r.right];
  }

  lemma TextReads(rules: Rules, header: string, head: Message, us: seq<Utterance>, value: string)
    requires HeaderReads(rules, header, head) && value == Converted(us)
    requires rules.white(' ') && forall i :: 0 <= i < |us| ==> Readable(rules, us[i])
    ensures Read(rules, header + value) == Some([head] + MessagesOf(us))
  {
    var line := header[..|header| - 1];
    assert header == line + ['\n'];
    ConvertedReads(rules, us);
    ReadFirst(rules, line, head, value);
  }

  lemma PieceReads(rules: Rules, m: Meeting, header: string, head: Message, chunk: Range, r: Range)
    requires AllReadable(rules, m) && HeaderReads(rules, header, head)
    requires chunk.left <= r.left < r.right <= chunk.right <= |m.utterances|
    ensures Read(rules, header + PieceOf(m.utterances, chunk)(r))
            == Some([head] + MessagesOf(m.utterances[r.left..r.right]))
  {
    ReadableIsClean(rules, m);
    CleanRange(m.utterances, chunk, r, r.left - chunk.left, r.right - chunk.left);
    TextReads(rules, header, head, m.utterances[r.left..r.right], PieceOf(m.utterances, chunk)(r));
  }

  /**
   In every window of a readable meeting the parser reads the header and then the stamp, the speaker and the body of
   exactly the utterances of its range.
   */
  lemma WindowReads(rules: Rules, m: Meeting, promptFits: string -> bool, header: string, head: Message,
                    cuts: seq<Range>, windows: seq<Window>, ranges: seq<Range>, k: nat)
    requires AllReadable(rules, m) && HeaderReads(rules, header, head) && k < |windows|
    requires AllCollected(WindowTest(m, promptFits, header, PiecesOf(m.utterances), cuts), |m.utterances|, windows,
                          ranges)
    ensures |ranges| == |windows| && ranges[k].left < ranges[k].right <= |m.utterances|
    ensures Read(rules, windows[k].text)
            == Some([head] + MessagesOf(m.utterances[ranges[k].left..ranges[k].right]))
  {
    var good := WindowTest(m, promptFits, header, PiecesOf(m.utterances), cuts);
    var r := Range(ranges[k].left + 0, ranges[k].right + 0);
    assert good(windows[k], r);
    var c :| 0 <= c < |cuts|
             && WindowOf(m, promptFits, header, PiecesOf(m.utterances)(cuts[c]), windows[k], r, cuts[c]);
    PieceReads(rules, m, header, head, cuts[c], r);
  }

  function SegmentsOf(messages: seq<Message>): (r: seq<D.Segment>)
    ensures |r| == |messages|
    ensures forall i :: 0 <= i < |r| ==> r[i] == D.Segment(messages[i].speaker, messages[i].body)
  {
    seq(|messages|, i requires 0 <= i < |messages| => D.Segment(messages[i].speaker, messages[i].body))
  }

  lemma ItemReads(m: Meeting, blank: string -> bool, u: Utterance, item: Item)
    requires Convertible(m, blank, u) && u.charStart < u.charEnd <= |m.text| && BodyOf(u, item)
    ensures 0 <= item.originalStart && 0 <= item.originalEnd && item.speaker == u.speaker
    ensures C.Sliced(m.text, item.originalStart, item.originalEnd) == u.body
  {
    OriginalBody(m, blank, u);
  }

  lemma ItemsRead(m: Meeting, blank: string -> bool, w: Window, r: Range, head: Message)
    requires Tiled(m) && AllConvertible(m, blank) && ItemsOf(m.utterances, w.mapping, r) && r.right <= |m.utterances|
    ensures D.Canonical(m, w, Some(SegmentsOf([head] + MessagesOf(m.utterances[r.left..r.right]))))
  {
    var parsed := SegmentsOf([head] + MessagesOf(m.utterances[r.left..r.right]));
    forall k | 0 <= k < |w.mapping|
      ensures 0 <= w.mapping[k].originalStart && 0 <= w.mapping[k].originalEnd
      ensures parsed[k + 1].speaker == w.mapping[k].speaker
      ensures parsed[k + 1].body == C.Sliced(m.text, w.mapping[k].originalStart, w.mapping[k].originalEnd)
    {
      var u := m.utterances[r.left + k];
      assert m.utterances[r.left..r.right][k] == u;
      ItemReads(m, blank, u, w.mapping[k]);
    }
  }

  /** So the check on what the parser read never refuses a readable meeting. */
  lemma ParserAccepts(rules: Rules, m: Meeting, blank: string -> bool, promptFits: string -> bool, header: string,
                      head: Message, cuts: seq<Range>, windows: seq<Window>, ranges: seq<Range>, k: nat)
    requires AllReadable(rules, m) && HeaderReads(rules, header, head) && k < |windows|
    requires Tiled(m) && AllConvertible(m, blank)
    requires AllCollected(WindowTest(m, promptFits, header, PiecesOf(m.utterances), cuts), |m.utterances|, windows,
                          ranges)
    ensures Read(rules, windows[k].text).Some?
            && D.Canonical(m, windows[k], Some(SegmentsOf(Read(rules, windows[k].text).value)))
  {
    WindowReads(rules, m, promptFits, header, head, cuts, windows, ranges, k);
    WindowHolds(m, promptFits, header, cuts, windows, ranges, k);
    ItemsRead(m, blank, windows[k], ranges[k], head);
  }

  lemma WindowHolds(m: Meeting, promptFits: string -> bool, header: string, cuts: seq<Range>, windows: seq<Window>,
                    ranges: seq<Range>, k: nat)
    requires k < |windows|
    requires AllCollected(WindowTest(m, promptFits, header, PiecesOf(m.utterances), cuts), |m.utterances|, windows,
                          ranges)
    ensures |ranges| == |windows| && ItemsOf(m.utterances, windows[k].mapping, ranges[k])
  {
    var r := Range(ranges[k].left + 0, ranges[k].right + 0);
    assert WindowTest(m, promptFits, header, PiecesOf(m.utterances), cuts)(windows[k], r);
  }
}
