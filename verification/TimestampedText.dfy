/** Reading timestamped lines, by the pattern of the product's parser, for messages of one line. */
module TimestampedText {
  import opened Basics
  import opened Transcript
  import opened SpeakerWindows

  datatype Message = Message(stamp: string, speaker: string, body: string)

  type Class = char -> bool

  /** What counts as white space, and which stamps are times; the parser asks nothing else of them. */
  datatype Rules = Rules(white: Class, isTime: string -> bool)

  // ----- Cutting strings

  datatype Cut = Cut(before: string, after: string)

  /** At the first `c`, which is dropped. */
  function AtFirst(s: string, c: char): Option<Cut> {
    if s == [] then None
    else if s[0] == c then Some(Cut([], s[1..]))
    else
      var rest := AtFirst(s[1..], c);
      if rest.None? then None else Some(Cut([s[0]] + rest.value.before, rest.value.after))
  }

  lemma {:induction false} CutAtFirst(before: string, c: char, after: string)
    requires c !in before
    ensures AtFirst(before + [c] + after, c) == Some(Cut(before, after))
  {
    var s := before + [c] + after;
    if before == [] {
      assert s[1..] == after;
    } else {
      assert s[1..] == before[1..] + [c] + after;
      CutAtFirst(before[1..], c, after);
      assert [before[0]] + before[1..] == before;
    }
  }

  function TrimLeft(white: Class, s: string): string {
    if s != [] && white(s[0]) then TrimLeft(white, s[1..]) else s
  }

  function TrimRight(white: Class, s: string): string {
    if s != [] && white(s[|s| - 1]) then TrimRight(white, s[..|s| - 1]) else s
  }

  function Trim(white: Class, s: string): string {
    TrimRight(white, TrimLeft(white, s))
  }

  predicate Trimmed(white: Class, s: string) {
    s != [] && !white(s[0]) && !white(s[|s| - 1])
  }

  lemma TrimSpace(white: Class, s: string)
    requires Trimmed(white, s) && white(' ')
    ensures Trim(white, [' '] + s) == s && Trim(white, s) == s
  {
    var spaced := [' '] + s;
    assert spaced[0] == ' ' && spaced[1..] == s;
    assert TrimLeft(white, s) == s && TrimRight(white, s) == s;
    assert TrimLeft(white, spaced) == TrimLeft(white, spaced[1..]);
  }

  // ----- One line

  /**
   A stamp in brackets, white space, a speaker up to the first colon, and the message: all three trimmed, none empty,
   and the stamp a time.
   */
  function ReadLine(rules: Rules, line: string): Option<Message> {
    if line == [] || line[0] != '[' then None
    else
      var stamp := AtFirst(line[1..], ']');
      if stamp.None? || stamp.value.after == [] || stamp.value.after[0] !in {' ', '\t'} then None
      else
        var speaker := AtFirst(stamp.value.after, ':');
        if speaker.None? then None
        else
          var m := Message(Trim(rules.white, stamp.value.before), Trim(rules.white, speaker.value.before),
                           Trim(rules.white, speaker.value.after));
          if m.speaker == [] || m.body == [] || !rules.isTime(m.stamp) then None else Some(m)
  }

  /** An utterance the parser can take back as it is. */
  predicate Readable(rules: Rules, u: Utterance) {
    && Trimmed(rules.white, u.stamp) && ']' !in u.stamp && '\n' !in u.stamp && rules.isTime(u.stamp)
    && Trimmed(rules.white, u.speaker) && ':' !in u.speaker && '\n' !in u.speaker
    && Trimmed(rules.white, u.body) && '\n' !in u.body
  }

  function MessageOf(u: Utterance): Message {
    Message(u.stamp, u.speaker, u.body)
  }

  /** A line put together as the parser expects it is read back. */
  lemma LineReads(rules: Rules, stamp: string, speaker: string, body: string)
    requires rules.white(' ') && rules.isTime(stamp)
    requires Trimmed(rules.white, stamp) && ']' !in stamp && Trimmed(rules.white, speaker) && ':' !in speaker
    requires Trimmed(rules.white, body)
    ensures ReadLine(rules, ['['] + stamp + [']'] + ([' '] + speaker + [':'] + ([' '] + body)))
            == Some(Message(stamp, speaker, body))
  {
    var after := [' '] + speaker + [':'] + ([' '] + body);
    var line := ['['] + stamp + [']'] + after;
    assert line[1..] == stamp + [']'] + after;
    CutAtFirst(stamp, ']', after);
    CutAtFirst([' '] + speaker, ':', [' '] + body);
    TrimSpace(rules.white, stamp);
    TrimSpace(rules.white, speaker);
    TrimSpace(rules.white, body);
  }

  lemma ConvertedLineIs(u: Utterance)
    ensures ConvertedLine(u)
            == ['['] + u.stamp + [']'] + ([' '] + u.speaker + [':'] + ([' '] + u.body)) + ['\n']
  {
  }

  // ----- Several lines

  /** Every line that ends in a line end, without it. */
  function Lines(s: string): seq<string>
    decreases |s|
  {
    var cut := AtFirst(s, '\n');
    if cut.None? then [] else AtFirstShorter(s, '\n'); [cut.value.before] + Lines(cut.value.after)
  }

  lemma {:induction false} AtFirstShorter(s: string, c: char)
    ensures AtFirst(s, c).Some? ==> |AtFirst(s, c).value.after| < |s|
  {
    if s != [] && s[0] != c {
      AtFirstShorter(s[1..], c);
    }
  }

  function ReadLines(rules: Rules, lines: seq<string>): Option<seq<Message>> {
    if lines == [] then Some([])
    else
      var first, rest := ReadLine(rules, lines[0]), ReadLines(rules, lines[1..]);
      if first.None? || rest.None? then None else Some([first.value] + rest.value)
  }

  /** The messages of a text, if each of its lines is one. */
  function Read(rules: Rules, text: string): Option<seq<Message>> {
    ReadLines(rules, Lines(text))
  }

  lemma {:induction false} FirstLine(line: string, rest: string)
    requires '\n' !in line
    ensures Lines(line + ['\n'] + rest) == [line] + Lines(rest)
  {
    CutAtFirst(line, '\n', rest);
  }

  lemma ReadFirst(rules: Rules, line: string, m: Message, rest: string)
    requires '\n' !in line && ReadLine(rules, line) == Some(m)
    ensures Read(rules, line + ['\n'] + rest) ==
            if Read(rules, rest).None? then None else Some([m] + Read(rules, rest).value)
  {
    FirstLine(line, rest);
    assert ([line] + Lines(rest))[1..] == Lines(rest);
  }

  function MessagesOf(us: seq<Utterance>): (r: seq<Message>)
    ensures |r| == |us| && forall i :: 0 <= i < |us| ==> r[i] == MessageOf(us[i])
  {
    seq(|us|, i requires 0 <= i < |us| => MessageOf(us[i]))
  }

  lemma UtteranceReads(rules: Rules, u: Utterance, rest: string)
    requires rules.white(' ') && Readable(rules, u)
    ensures Read(rules, ConvertedLine(u) + rest) ==
            if Read(rules, rest).None? then None else Some([MessageOf(u)] + Read(rules, rest).value)
  {
    var line := ['['] + u.stamp + [']'] + ([' '] + u.speaker + [':'] + ([' '] + u.body));
    ConvertedLineIs(u);
    LineReads(rules, u.stamp, u.speaker, u.body);
    ReadFirst(rules, line, MessageOf(u), rest);
  }

  lemma ConvertedFirst(us: seq<Utterance>)
    requires us != []
    ensures Converted(us) == ConvertedLine(us[0]) + Converted(us[1..])
  {
    JoinedCut(ConvertedLine, us, 1);
    JoinedOne(ConvertedLine, us, 0);
    assert us[..1] == us[0..1];
  }

  lemma MessagesFirst(us: seq<Utterance>)
    requires us != []
    ensures MessagesOf(us) == [MessageOf(us[0])] + MessagesOf(us[1..])
  {
  }

  lemma NothingReads(rules: Rules, us: seq<Utterance>)
    requires |us| == 0
    ensures Read(rules, Converted(us)) == Some(MessagesOf(us))
  {
    assert |Converted(us)| == 0 && |Lines(Converted(us))| == 0;
  }

  /** The converted lines of readable utterances are read back as their stamps, speakers and bodies. */
  lemma {:induction false} ConvertedReads(rules: Rules, us: seq<Utterance>)
    requires rules.white(' ') && forall i :: 0 <= i < |us| ==> Readable(rules, us[i])
    ensures Read(rules, Converted(us)) == Some(MessagesOf(us))
  {
    if |us| == 0 {
      NothingReads(rules, us);
    } else {
      ConvertedFirst(us);
      ConvertedReads(rules, us[1..]);
      UtteranceReads(rules, us[0], Converted(us[1..]));
      MessagesFirst(us);
    }
  }

  // ----- The lines of the original transcript

  datatype Original = Original(speaker: string, times: string, body: string)

  /** A speaker, a space, times in brackets, a colon and a space, and the body up to the line end. */
  function ReadOriginal(line: string): Option<Original> {
    var speaker := AtFirst(line, '[');
    if speaker.None? || speaker.value.before == [] || speaker.value.before[|speaker.value.before| - 1] != ' ' then None
    else
      var times := AtFirst(speaker.value.after, ']');
      if times.None? || |times.value.after| < 3 || times.value.after[0] != ':' || times.value.after[1] != ' '
         || times.value.after[|times.value.after| - 1] != '\n' then None
      else
        Some(Original(speaker.value.before[..|speaker.value.before| - 1], times.value.before,
                      times.value.after[2..|times.value.after| - 1]))
  }

  lemma LineIs(u: Utterance)
    ensures Line(u) == (u.speaker + [' ']) + ['['] + (u.times + [']'] + ([':', ' '] + u.body + ['\n']))
  {
  }

  lemma OriginalReads(u: Utterance)
    requires '[' !in u.speaker && ']' !in u.times
    ensures ReadOriginal(Line(u)) == Some(Original(u.speaker, u.times, u.body))
  {
    var end := [':', ' '] + u.body + ['\n'];
    LineIs(u);
    CutAtFirst(u.speaker + [' '], '[', u.times + [']'] + end);
    CutAtFirst(u.times, ']', end);
    assert (u.speaker + [' '])[..|u.speaker|] == u.speaker;
    assert end[2..|end| - 1] == u.body;
  }

  /** In a transcript that was laid out from rows each row is read back where its offsets say. */
  lemma TranscriptReads(m: Meeting, i: nat)
    requires LinesExact(m) && i < |m.utterances|
    requires '[' !in m.utterances[i].speaker && ']' !in m.utterances[i].times
    ensures var u := m.utterances[i];
            ReadOriginal(m.text[u.charStart..u.charEnd]) == Some(Original(u.speaker, u.times, u.body))
  {
    OriginalReads(m.utterances[i]);
  }
}
