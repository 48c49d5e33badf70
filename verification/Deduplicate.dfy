/** Predictions of a whole meeting: one for each distinct set of original work ranges, in the order first seen. */
module Deduplicate {
  import opened Basics
  import opened Transcript
  import opened Ranges
  import opened Spans
  import C = Chunks

  datatype Field = Description | RawText | OtherField

  datatype Evidence = Evidence(field: Field, start: int, end: int)

  datatype Observation = Observation(
    rawText: string, description: string, owner: Option<string>, deadline: Option<string>, evidence: seq<Evidence>)

  /** `Unknown` is the source's word for a field that is not given. */
  datatype Stated = Unknown | Stated(text: string)

  datatype Prediction = Prediction(quote: string, task: string, owner: Stated, deadline: Stated)

  /** One message as the parser of the converted text reads it; the first stands for the header. */
  datatype Segment = Segment(speaker: string, body: string)

  /**
   What came of one window: what the parser read, unless it could not read everything, and what was observed, unless
   the extraction failed.
   */
  datatype Discovery = Discovery(parsed: Option<seq<Segment>>, observations: Option<seq<Observation>>)

  /** An observation and the window it was found in. */
  datatype Candidate = Candidate(window: Window, observation: Observation)

  type Work = multiset<Span>

  /** Where a range found in a window stands in the meeting, by the window's mapping or by the chunk's offset alone. */
  function Locate(wired: bool, w: Window, start: int, end: int): Option<Span> {
    if wired then OriginalSpan(w.mapping, start, end) else Some(Span(w.offset + start, w.offset + end))
  }

  /** The original ranges of the description, in any order; nothing when one of them cannot be located. */
  function WorkOf(wired: bool, w: Window, evidence: seq<Evidence>): Option<Work> {
    if evidence == [] then Some(multiset{})
    else
      var before, e := WorkOf(wired, w, evidence[..|evidence| - 1]), evidence[|evidence| - 1];
      if before.None? || !e.field.Description? then before
      else
        var span := Locate(wired, w, e.start, e.end);
        if span.None? then None else Some(before.value + multiset{span.value})
  }

  function Key(wired: bool, c: Candidate): Option<Work> {
    WorkOf(wired, c.window, c.observation.evidence)
  }

  function FirstQuote(evidence: seq<Evidence>): Option<Evidence> {
    if evidence == [] then None
    else if evidence[0].field.RawText? then Some(evidence[0])
    else FirstQuote(evidence[1..])
  }

  /** The quote stands unchanged in the original text where its evidence says. */
  predicate QuoteStands(m: Meeting, c: Candidate) {
    var e := FirstQuote(c.observation.evidence);
    && e.Some?
    && var span := OriginalSpan(c.window.mapping, e.value.start, e.value.end);
      && span.Some? && 0 <= span.value.start <= span.value.end <= |m.text|
      && m.text[span.value.start..span.value.end] == c.observation.rawText
  }

  function OrUnknown(value: Option<string>): Stated {
    if value.None? || value.value == [] then Unknown else Stated(value.value)
  }

  function Predicted(c: Candidate): Prediction {
    Prediction(c.observation.rawText, c.observation.description, OrUnknown(c.observation.owner),
        OrUnknown(c.observation.deadline))
  }

  // ----- What the result must be

  /** No earlier candidate has the same work. */
  predicate Fresh(wired: bool, cs: seq<Candidate>, i: nat)
    requires i < |cs|
  {
    forall j :: 0 <= j < i ==> Key(wired, cs[j]) != Key(wired, cs[i])
  }

  predicate Located(wired: bool, cs: seq<Candidate>) {
    forall i :: 0 <= i < |cs| ==> Key(wired, cs[i]).Some?
  }

  predicate Acceptable(m: Meeting, wired: bool, cs: seq<Candidate>) {
    && Located(wired, cs)
    && (wired ==> forall i :: 0 <= i < |cs| && Fresh(wired, cs, i) ==> QuoteStands(m, cs[i]))
  }

  /** The predictions are those of exactly the fresh candidates, in order. */
  ghost predicate FirstSeen(wired: bool, cs: seq<Candidate>, from: seq<nat>, predictions: seq<Prediction>) {
    && |from| == |predictions|
    && (forall j, k :: 0 <= j < k < |from| ==> from[j] < from[k])
    && (forall k :: 0 <= k < |from| ==>
          from[k] < |cs| && Fresh(wired, cs, from[k]) && predictions[k] == Predicted(cs[from[k]]))
    && (forall i :: 0 <= i < |cs| && Fresh(wired, cs, i) ==> i in from)
  }

  /** The works already seen are exactly those of the candidates. */
  ghost predicate SeenAll(wired: bool, cs: seq<Candidate>, seen: set<Work>) {
    && (forall i :: 0 <= i < |cs| ==> Key(wired, cs[i]).Some? && Key(wired, cs[i]).value in seen)
    && (forall work :: work in seen ==> exists i :: 0 <= i < |cs| && Key(wired, cs[i]) == Some(work))
  }

  lemma FreshPrefix(wired: bool, cs: seq<Candidate>, more: seq<Candidate>, i: nat)
    requires i < |cs|
    ensures Fresh(wired, cs + more, i) == Fresh(wired, cs, i)
  {
    assert forall j :: 0 <= j <= i ==> (cs + more)[j] == cs[j];
  }

  lemma FreshIffUnseen(wired: bool, cs: seq<Candidate>, seen: set<Work>, c: Candidate)
    requires SeenAll(wired, cs, seen) && Key(wired, c).Some?
    ensures Fresh(wired, cs + [c], |cs|) <==> Key(wired, c).value !in seen
  {
    var all := cs + [c];
    if Key(wired, c).value in seen {
      var i :| 0 <= i < |cs| && Key(wired, cs[i]) == Some(Key(wired, c).value);
      assert all[i] == cs[i];
    }
  }

  lemma SeenOneMore(wired: bool, cs: seq<Candidate>, seen: set<Work>, c: Candidate)
    requires SeenAll(wired, cs, seen) && Key(wired, c).Some?
    ensures SeenAll(wired, cs + [c], seen + {Key(wired, c).value})
  {
    var all, seen' := cs + [c], seen + {Key(wired, c).value};
    forall work | work in seen' ensures exists i :: 0 <= i < |all| && Key(wired, all[i]) == Some(work) {
      if work in seen {
        var i :| 0 <= i < |cs| && Key(wired, cs[i]) == Some(work);
        assert all[i] == cs[i];
      } else {
        assert all[|cs|] == c;
      }
    }
  }

  lemma FirstSeenSkip(wired: bool, cs: seq<Candidate>, from: seq<nat>, predictions: seq<Prediction>, c: Candidate)
    requires FirstSeen(wired, cs, from, predictions) && !Fresh(wired, cs + [c], |cs|)
    ensures FirstSeen(wired, cs + [c], from, predictions)
  {
    forall i | 0 <= i < |cs| ensures Fresh(wired, cs + [c], i) == Fresh(wired, cs, i) {
      FreshPrefix(wired, cs, [c], i);
    }
  }

  lemma FirstSeenOneMore(wired: bool, cs: seq<Candidate>, from: seq<nat>, predictions: seq<Prediction>, c: Candidate)
    requires FirstSeen(wired, cs, from, predictions) && Fresh(wired, cs + [c], |cs|)
    ensures FirstSeen(wired, cs + [c], from + [|cs|], predictions + [Predicted(c)])
  {
    forall i | 0 <= i < |cs| ensures Fresh(wired, cs + [c], i) == Fresh(wired, cs, i) {
      FreshPrefix(wired, cs, [c], i);
    }
    forall i | 0 <= i <= |cs| && Fresh(wired, cs + [c], i) ensures i in from + [|cs|] {
      assert (from + [|cs|])[|from|] == |cs|;
    }
  }

  lemma AcceptableOneMore(m: Meeting, wired: bool, cs: seq<Candidate>, c: Candidate)
    ensures Acceptable(m, wired, cs + [c]) <==>
            (Acceptable(m, wired, cs) && Key(wired, c).Some?
             && (wired && Fresh(wired, cs + [c], |cs|) ==> QuoteStands(m, c)))
  {
    var all := cs + [c];
    forall i | 0 <= i < |cs| ensures all[i] == cs[i] && Fresh(wired, all, i) == Fresh(wired, cs, i) {
      FreshPrefix(wired, cs, [c], i);
    }
    assert all[|cs|] == c;
    if Acceptable(m, wired, all) {
      assert Key(wired, all[|cs|]).Some?;
      forall i | 0 <= i < |cs| ensures Key(wired, cs[i]).Some? {
        assert Key(wired, all[i]).Some?;
      }
    }
  }

  lemma AcceptablePrefix(m: Meeting, wired: bool, cs: seq<Candidate>, more: seq<Candidate>)
    ensures Acceptable(m, wired, cs + more) ==> Acceptable(m, wired, cs)
  {
    var all := cs + more;
    forall i | 0 <= i < |cs| ensures all[i] == cs[i] && Fresh(wired, all, i) == Fresh(wired, cs, i) {
      FreshPrefix(wired, cs, more, i);
    }
    forall i | 0 <= i < |cs| ensures Key(wired, cs[i]) == Key(wired, all[i]) {
    }
  }

  // ----- The windows

  /** The parser read the speaker and the original body of every item, behind the header. */
  predicate Canonical(m: Meeting, w: Window, parsed: Option<seq<Segment>>) {
    && parsed.Some? && |parsed.value| == |w.mapping| + 1
    && forall k :: 0 <= k < |w.mapping| ==>
         && 0 <= w.mapping[k].originalStart && 0 <= w.mapping[k].originalEnd
         && parsed.value[k + 1].speaker == w.mapping[k].speaker
         && parsed.value[k + 1].body == C.Sliced(m.text, w.mapping[k].originalStart, w.mapping[k].originalEnd)
  }

  predicate Discovered(m: Meeting, wired: bool, w: Window, d: Discovery) {
    (wired ==> Canonical(m, w, d.parsed)) && d.observations.Some?
  }

  ghost predicate AllDiscovered(m: Meeting, wired: bool, windows: seq<Window>, found: seq<Discovery>)
    requires |windows| == |found|
  {
    forall i :: 0 <= i < |windows| ==> Discovered(m, wired, windows[i], found[i])
  }

  function Observed(d: Discovery): seq<Observation> {
    if d.observations.Some? then d.observations.value else []
  }

  /** The parser read the speaker of every item, and the text that stands between its two ends in the window. */
  predicate ReadsItself(w: Window, parsed: Option<seq<Segment>>) {
    && parsed.Some? && |parsed.value| == |w.mapping| + 1
    && forall k :: 0 <= k < |w.mapping| ==>
         && 0 <= w.mapping[k].start <= w.mapping[k].end <= |w.text|
         && parsed.value[k + 1] == Segment(w.mapping[k].speaker, w.text[w.mapping[k].start..w.mapping[k].end])
  }

  /** A faithful window passes the check exactly when the parser read back the window's own text. */
  lemma CanonicalReadsItself(m: Meeting, w: Window, parsed: Option<seq<Segment>>)
    requires Faithful(m, w)
    ensures Canonical(m, w, parsed) <==> ReadsItself(w, parsed)
  {
    assert forall k :: 0 <= k < |w.mapping| ==> ItemFaithful(m, w.text, w.mapping[k]);
  }

  /** Every faithful window was read back as it stands. */
  ghost predicate AllReadBack(m: Meeting, windows: seq<Window>, found: seq<Discovery>)
    requires |windows| == |found|
  {
    forall i :: 0 <= i < |windows| && Faithful(m, windows[i]) ==> ReadsItself(windows[i], found[i].parsed)
  }

  lemma DiscoveredReadBack(m: Meeting, windows: seq<Window>, found: seq<Discovery>)
    requires |windows| == |found| && AllDiscovered(m, true, windows, found)
    ensures AllReadBack(m, windows, found)
  {
    forall i | 0 <= i < |windows| && Faithful(m, windows[i]) ensures ReadsItself(windows[i], found[i].parsed) {
      assert Discovered(m, true, windows[i], found[i]);
      CanonicalReadsItself(m, windows[i], found[i].parsed);
    }
  }

  // ----- The loops

  /** The candidates of all windows, in order. */
  function Flatten(windows: seq<Window>, found: seq<Discovery>): seq<Candidate>
    requires |windows| == |found|
  {
    if windows == [] then []
    else
      Flatten(windows[..|windows| - 1], found[..|found| - 1])
      + Tagged(windows[|windows| - 1], Observed(found[|found| - 1]))
  }

  function Tagged(w: Window, os: seq<Observation>): (r: seq<Candidate>)
    ensures |r| == |os| && forall k :: 0 <= k < |r| ==> r[k] == Candidate(w, os[k])
  {
    seq(|os|, k requires 0 <= k < |os| => Candidate(w, os[k]))
  }

  /** Where the loops stand after the candidates `cs`. */
  ghost predicate Standing(m: Meeting, wired: bool, cs: seq<Candidate>, seen: set<Work>, from: seq<nat>,
                           predictions: seq<Prediction>)
  {
    Acceptable(m, wired, cs) && SeenAll(wired, cs, seen) && FirstSeen(wired, cs, from, predictions)
  }

  /** One observation: skipped when its work was seen, refused when its evidence does not lead back, else predicted. */
  method Take(m: Meeting, wired: bool, c: Candidate, seen: set<Work>, predictions: seq<Prediction>,
              ghost cs: seq<Candidate>, ghost from: seq<nat>)
      returns (ok: bool, seen': set<Work>, predictions': seq<Prediction>, ghost from': seq<nat>)
    requires Standing(m, wired, cs, seen, from, predictions)
    ensures ok <==> Acceptable(m, wired, cs + [c])
    ensures ok ==> Standing(m, wired, cs + [c], seen', from', predictions')
  {
    AcceptableOneMore(m, wired, cs, c);
    ok, seen', predictions', from' := true, seen, predictions, from;
    var work := Key(wired, c);
    if work.None? {
      return false, seen, predictions, from;
    }
    FreshIffUnseen(wired, cs, seen, c);
    SeenOneMore(wired, cs, seen, c);
    if work.value in seen {
      assert seen + {work.value} == seen;
      FirstSeenSkip(wired, cs, from, predictions, c);
      return;
    }
    seen' := seen + {work.value};
    if wired && !QuoteStands(m, c) {
      return false, seen', predictions, from;
    }
    FirstSeenOneMore(wired, cs, from, predictions, c);
    predictions' := predictions + [Predicted(c)];
    from' := from + [|cs|];
  }

  /** All observations of one window. */
  method TakeWindow(m: Meeting, wired: bool, w: Window, os: seq<Observation>, seen: set<Work>,
                    predictions: seq<Prediction>,
                    ghost cs: seq<Candidate>, ghost from: seq<nat>)
      returns (ok: bool, seen': set<Work>, predictions': seq<Prediction>, ghost from': seq<nat>)
    requires Standing(m, wired, cs, seen, from, predictions)
    ensures ok <==> Acceptable(m, wired, cs + Tagged(w, os))
    ensures ok ==> Standing(m, wired, cs + Tagged(w, os), seen', from', predictions')
  {
    ok, seen', predictions', from' := true, seen, predictions, from;
    ghost var all := Tagged(w, os);
    assert cs + all[..0] == cs;
    for k := 0 to |os|
      invariant Standing(m, wired, cs + all[..k], seen', from', predictions')
    {
      ok, seen', predictions', from' := Take(m, wired, Candidate(w, os[k]), seen', predictions', cs + all[..k], from');
      assert cs + all[..k] + [Candidate(w, os[k])] == cs + all[..k + 1];
      if !ok {
        assert cs + all[..k + 1] + all[k + 1..] == cs + all;
        AcceptablePrefix(m, wired, cs + all[..k + 1], all[k + 1..]);
        return;
      }
    }
    ok := true;
    assert all[..|os|] == all;
  }

  /** The checks on one window before its observations are looked at. */
  method CheckWindow(m: Meeting, wired: bool, w: Window, d: Discovery) returns (error: Option<string>)
    ensures error.None? <==> Discovered(m, wired, w, d)
  {
    if wired && !Canonical(m, w, d.parsed) {
      return Some("Speaker conversion failed canonical parsing");
    }
    if d.observations.None? {
      return Some("Extraction failed; not scored as zero tasks");
    }
    return None;
  }

  lemma FlattenOneMore(windows: seq<Window>, found: seq<Discovery>, i: nat)
    requires |windows| == |found| && i < |windows|
    ensures Flatten(windows[..i + 1], found[..i + 1])
            == Flatten(windows[..i], found[..i]) + Tagged(windows[i], Observed(found[i]))
  {
    assert windows[..i + 1][..i] == windows[..i] && found[..i + 1][..i] == found[..i];
  }

  lemma {:induction false} FlattenPrefix(windows: seq<Window>, found: seq<Discovery>, i: nat)
      returns (rest: seq<Candidate>)
    requires |windows| == |found| && i <= |windows|
    ensures Flatten(windows, found) == Flatten(windows[..i], found[..i]) + rest
  {
    var n := |windows| - 1;
    if i == |windows| {
      assert windows[..i] == windows && found[..i] == found;
      rest := [];
    } else {
      var before := FlattenPrefix(windows[..n], found[..n], i);
      assert windows[..n][..i] == windows[..i] && found[..n][..i] == found[..i];
      rest := before + Tagged(windows[n], Observed(found[n]));
      Associate(Flatten(windows[..i], found[..i]), before, Tagged(windows[n], Observed(found[n])));
    }
  }

  lemma Associate<T>(a: seq<T>, b: seq<T>, c: seq<T>)
    ensures (a + b) + c == a + (b + c)
  {
  }

  lemma {:induction false} RefusedEarly(m: Meeting, wired: bool, windows: seq<Window>, found: seq<Discovery>, i: nat)
    requires |windows| == |found| && i <= |windows|
    requires !Acceptable(m, wired, Flatten(windows[..i], found[..i]))
    ensures !Acceptable(m, wired, Flatten(windows, found))
  {
    var rest := FlattenPrefix(windows, found, i);
    AcceptablePrefix(m, wired, Flatten(windows[..i], found[..i]), rest);
  }

  /** Where the loop over the windows stands after the first `n`. */
  ghost predicate StandingAfter(
    m: Meeting, wired: bool, windows: seq<Window>, found: seq<Discovery>, n: nat, seen: set<Work>, from: seq<nat>,
    predictions: seq<Prediction>)
    requires n <= |windows| == |found|
  {
    Standing(m, wired, Flatten(windows[..n], found[..n]), seen, from, predictions)
  }

  lemma NothingSeen(m: Meeting, wired: bool, cs: seq<Candidate>, seen: set<Work>, from: seq<nat>,
                    predictions: seq<Prediction>)
    requires |cs| == |seen| == |from| == |predictions| == 0
    ensures Standing(m, wired, cs, seen, from, predictions)
  {
  }

  lemma {:induction false} FlattenNone(windows: seq<Window>, found: seq<Discovery>)
    requires |windows| == |found| == 0
    ensures |Flatten(windows, found)| == 0
  {
  }

  method Begin(m: Meeting, wired: bool, ghost windows: seq<Window>, ghost found: seq<Discovery>)
      returns (seen: set<Work>, predictions: seq<Prediction>, ghost from: seq<nat>)
    requires |windows| == |found|
    ensures StandingAfter(m, wired, windows, found, 0, seen, from, predictions)
  {
    seen, predictions, from := {}, [], [];
    FlattenNone(windows[..0], found[..0]);
    NothingSeen(m, wired, Flatten(windows[..0], found[..0]), seen, from, predictions);
  }

  /** One window: its checks, and then its observations. */
  method PredictWindow(m: Meeting, wired: bool, windows: seq<Window>, found: seq<Discovery>, i: nat, seen: set<Work>,
                       predictions: seq<Prediction>, ghost from: seq<nat>)
      returns (error: Option<string>, seen': set<Work>, predictions': seq<Prediction>, ghost from': seq<nat>)
    requires i < |windows| == |found| && StandingAfter(m, wired, windows, found, i, seen, from, predictions)
    ensures error.Some? ==>
              !Discovered(m, wired, windows[i], found[i]) || !Acceptable(m, wired, Flatten(windows, found))
    ensures error.None? ==>
              && Discovered(m, wired, windows[i], found[i])
              && StandingAfter(m, wired, windows, found, i + 1, seen', from', predictions')
  {
    seen', predictions', from' := seen, predictions, from;
    error := CheckWindow(m, wired, windows[i], found[i]);
    if error.Some? {
      return;
    }
    ghost var cs := Flatten(windows[..i], found[..i]);
    FlattenOneMore(windows, found, i);
    var ok;
    ok, seen', predictions', from' := TakeWindow(m, wired, windows[i], Observed(found[i]), seen, predictions, cs, from);
    if !ok {
      RefusedEarly(m, wired, windows, found, i + 1);
      error := Some("Task evidence does not lead back to the original text");
    }
  }

  lemma {:induction false} StandingAtEnd(
      m: Meeting, wired: bool, windows: seq<Window>, found: seq<Discovery>, seen: set<Work>, from: seq<nat>,
      predictions: seq<Prediction>)
    requires |windows| == |found| && StandingAfter(m, wired, windows, found, |windows|, seen, from, predictions)
    ensures Acceptable(m, wired, Flatten(windows, found))
            && FirstSeen(wired, Flatten(windows, found), from, predictions)
  {
    assert windows[..|windows|] == windows && found[..|found|] == found;
  }

  /**
   The predictions of a meeting: those of exactly the candidates whose work no earlier one has, and nothing at all
   unless every window was parsed and extracted and every evidence range leads back into the meeting.
   */
  method Predict(m: Meeting, wired: bool, windows: seq<Window>, found: seq<Discovery>)
      returns (r: Result<seq<Prediction>, string>, ghost from: seq<nat>)
    requires |windows| == |found|
    ensures r.Ok? <==> AllDiscovered(m, wired, windows, found) && Acceptable(m, wired, Flatten(windows, found))
    ensures r.Ok? ==> FirstSeen(wired, Flatten(windows, found), from, r.value)
    ensures r.Ok? && wired ==> AllReadBack(m, windows, found)
  {
    var seen, predictions;
    seen, predictions, from := Begin(m, wired, windows, found);
    for i := 0 to |windows|
      invariant forall k :: 0 <= k < i ==> Discovered(m, wired, windows[k], found[k])
      invariant StandingAfter(m, wired, windows, found, i, seen, from, predictions)
    {
      var error;
      error, seen, predictions, from := PredictWindow(m, wired, windows, found, i, seen, predictions, from);
      if error.Some? {
        return Err(error.value), from;
      }
    }
    StandingAtEnd(m, wired, windows, found, seen, from, predictions);
    if wired {
      DiscoveredReadBack(m, windows, found);
    }
    return Ok(predictions), from;
  }

  // ----- What this means

  /** Exactly one prediction for each distinct work: none is lost, none comes twice. */
  lemma OnePredictionPerWork(wired: bool, cs: seq<Candidate>, from: seq<nat>, predictions: seq<Prediction>, i: nat)
    requires FirstSeen(wired, cs, from, predictions) && i < |cs|
    ensures exists k :: 0 <= k < |from| && from[k] <= i && Key(wired, cs[from[k]]) == Key(wired, cs[i])
    ensures forall j, k :: (0 <= j < |from| && 0 <= k < |from| && Key(wired, cs[from[j]]) == Key(wired, cs[i])
                            && Key(wired, cs[from[k]]) == Key(wired, cs[i])) ==> j == k
  {
    var first := FirstWith(wired, cs, i);
    var k :| 0 <= k < |from| && from[k] == first;
    forall j, k | 0 <= j < |from| && 0 <= k < |from| && Key(wired, cs[from[j]]) == Key(wired, cs[i])
                  && Key(wired, cs[from[k]]) == Key(wired, cs[i])
      ensures j == k
    {
      assert Fresh(wired, cs, from[j]) && Fresh(wired, cs, from[k]);
    }
  }

  lemma {:induction false} FirstWith(wired: bool, cs: seq<Candidate>, i: nat) returns (first: nat)
    requires i < |cs|
    ensures first <= i && Key(wired, cs[first]) == Key(wired, cs[i]) && Fresh(wired, cs, first)
    decreases i
  {
    if Fresh(wired, cs, i) {
      first := i;
    } else {
      var j :| 0 <= j < i && Key(wired, cs[j]) == Key(wired, cs[i]);
      first := FirstWith(wired, cs, j);
    }
  }

  /** The window is a piece of the meeting, as chunks are. */
  predicate IsPiece(m: Meeting, w: Window) {
    w.offset + |w.text| <= |m.text| && w.text == m.text[w.offset..w.offset + |w.text|]
  }

  /** Every chunk that is cut from a meeting is a piece of it. */
  lemma ChunksArePieces(m: Meeting, ranges: seq<Range>, chunks: seq<C.Chunk>, k: nat, mapping: seq<Item>)
    requires Tiled(m) && C.Cut(m, ranges, chunks) && k < |chunks|
    ensures IsPiece(m, Window(chunks[k].offset, chunks[k].text, mapping))
  {
    C.TiledBounds(m, ranges[k].left, ranges[k].right - 1);
  }

  /** Without a mapping, evidence in a piece leads to the same characters in the meeting, where they stand there. */
  lemma LocatedText(m: Meeting, w: Window, start: nat, end: nat)
    requires IsPiece(m, w) && start <= end <= |w.text|
    ensures Locate(false, w, start, end).Some?
    ensures var span := Locate(false, w, start, end).value;
            && 0 <= span.start <= span.end <= |m.text| && m.text[span.start..span.end] == w.text[start..end]
            && |m.text[..span.start]| == |m.text[..w.offset]| + |w.text[..start]|
  {
    SliceOfSlice(m.text, w.offset, w.offset + |w.text|, start, end);
  }

  /**
   Evidence that stands in a window for an original range: by its mapping, or where the range stands in the piece of the
   meeting that the window is.
   */
  predicate Places(wired: bool, w: Window, e: Evidence, original: Span) {
    if wired then WindowSpan(w.mapping, original.start, original.end) == Some(Span(e.start, e.end))
    else
      && w.offset <= original.start <= original.end <= w.offset + |w.text|
      && e.start == original.start - w.offset && e.end == original.end - w.offset
  }

  /** The description's evidence in a window stands for the original ranges, one by one. */
  ghost predicate Describes(wired: bool, w: Window, evidence: seq<Evidence>, originals: seq<Span>) {
    && |evidence| == |originals|
    && forall k :: 0 <= k < |evidence| ==>
         evidence[k].field.Description? && Places(wired, w, evidence[k], originals[k])
  }

  /** What a window must be for its evidence to lead back. */
  ghost predicate Sourced(m: Meeting, wired: bool, w: Window) {
    if wired then Faithful(m, w) else IsPiece(m, w)
  }

  lemma PlacedIsLocated(m: Meeting, wired: bool, w: Window, e: Evidence, original: Span)
    requires Sourced(m, wired, w) && Places(wired, w, e, original)
    ensures Locate(wired, w, e.start, e.end) == Some(original)
  {
    if wired {
      OriginalRoundTrip(m, w, original.start, original.end);
    }
  }

  lemma {:induction false} DescribedWork(m: Meeting, wired: bool, w: Window, evidence: seq<Evidence>,
                                         originals: seq<Span>)
    requires Sourced(m, wired, w) && Describes(wired, w, evidence, originals)
    ensures WorkOf(wired, w, evidence) == Some(multiset(originals))
  {
    if evidence != [] {
      var n := |evidence| - 1;
      DescribedWork(m, wired, w, evidence[..n], originals[..n]);
      PlacedIsLocated(m, wired, w, evidence[n], originals[n]);
      assert originals == originals[..n] + [originals[n]];
    }
  }

  function DescriptionOnly(evidence: seq<Evidence>): seq<Evidence> {
    if evidence == [] then []
    else
      var before, e := DescriptionOnly(evidence[..|evidence| - 1]), evidence[|evidence| - 1];
      if e.field.Description? then before + [e] else before
  }

  lemma {:induction false} SameNextWork(wired: bool, w: Window, a: seq<Evidence>, b: seq<Evidence>, e: Evidence)
    requires WorkOf(wired, w, a) == WorkOf(wired, w, b)
    ensures WorkOf(wired, w, a + [e]) == WorkOf(wired, w, b + [e])
  {
    assert (a + [e])[..|a|] == a && (b + [e])[..|b|] == b;
  }

  lemma {:induction false} WorkIsOfDescription(wired: bool, w: Window, evidence: seq<Evidence>)
    ensures WorkOf(wired, w, evidence) == WorkOf(wired, w, DescriptionOnly(evidence))
  {
    if evidence != [] {
      var before, e := evidence[..|evidence| - 1], evidence[|evidence| - 1];
      WorkIsOfDescription(wired, w, before);
      SameNextWork(wired, w, before, DescriptionOnly(before), e);
      assert evidence == before + [e];
    }
  }

  /**
   Two observations of the same work, found in two windows that overlap there and listing their ranges in any order,
   have the same work, so only the earlier is predicted; different work is never merged. With a mapping or without one.
   */
  lemma OverlapPredictsOnce(
      m: Meeting, wired: bool, cs: seq<Candidate>, i: nat, j: nat, originals: seq<Span>, originals': seq<Span>,
      from: seq<nat>, predictions: seq<Prediction>)
    requires i < j < |cs| && Sourced(m, wired, cs[i].window) && Sourced(m, wired, cs[j].window)
    requires Describes(wired, cs[i].window, DescriptionOnly(cs[i].observation.evidence), originals)
    requires Describes(wired, cs[j].window, DescriptionOnly(cs[j].observation.evidence), originals')
    requires FirstSeen(wired, cs, from, predictions)
    ensures multiset(originals) == multiset(originals') ==> j !in from
    ensures multiset(originals) != multiset(originals') ==> Key(wired, cs[i]) != Key(wired, cs[j])
  {
    WorkIsOfDescription(wired, cs[i].window, cs[i].observation.evidence);
    WorkIsOfDescription(wired, cs[j].window, cs[j].observation.evidence);
    DescribedWork(m, wired, cs[i].window, DescriptionOnly(cs[i].observation.evidence), originals);
    DescribedWork(m, wired, cs[j].window, DescriptionOnly(cs[j].observation.evidence), originals');
    if multiset(originals) == multiset(originals') {
      assert Key(wired, cs[i]) == Key(wired, cs[j]);
      assert !Fresh(wired, cs, j);
    }
  }

  /**
   A prediction repeats its observation: quote and task as they are; an owner or a deadline that was given and not empty
   as it is; and exactly a missing or empty one as unknown.
   */
  lemma PredictionRepeats(wired: bool, cs: seq<Candidate>, from: seq<nat>, predictions: seq<Prediction>, k: nat)
    requires FirstSeen(wired, cs, from, predictions) && k < |predictions|
    ensures from[k] < |cs|
    ensures var p, o := predictions[k], cs[from[k]].observation;
            && p.quote == o.rawText && p.task == o.description
            && (p.owner.Unknown? <==> o.owner.None? || |o.owner.value| == 0)
            && (p.owner.Stated? ==> o.owner == Some(p.owner.text))
            && (p.deadline.Unknown? <==> o.deadline.None? || |o.deadline.value| == 0)
            && (p.deadline.Stated? ==> o.deadline == Some(p.deadline.text))
  {
  }

  /** Every prediction's quote is text of the meeting. */
  lemma QuotesAreOriginal(m: Meeting, cs: seq<Candidate>, from: seq<nat>, predictions: seq<Prediction>, k: nat)
    requires Acceptable(m, true, cs) && FirstSeen(true, cs, from, predictions) && k < |predictions|
    ensures exists a, b :: 0 <= a <= b <= |m.text| && m.text[a..b] == predictions[k].quote
  {
    var c := cs[from[k]];
    assert QuoteStands(m, c);
    var e := FirstQuote(c.observation.evidence).value;
    var span := OriginalSpan(c.window.mapping, e.start, e.end).value;
    assert m.text[span.start..span.end] == predictions[k].quote;
  }
}
