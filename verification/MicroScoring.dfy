/** Scoring a whole evaluation: each meeting, the gold tasks nobody matched, and all meetings together. */
module MicroScoring {
  import opened Basics
  import opened Judging
  import opened Scoring

  /** The accepted, reviewed rows of one meeting with its gold tasks. */
  datatype Meeting = Meeting(rows: seq<Row>, gold: seq<Gold>)

  /** Every match is with a gold task of the meeting, each at most once. */
  ghost predicate Grounded(m: Meeting) {
    && (forall i :: 0 <= i < |m.rows| && IsMatch(m.rows[i]) ==>
          m.rows[i].gold.Some? && m.rows[i].gold.value in GoldMap(m.gold))
    && (forall i, k :: 0 <= i < k < |m.rows| && IsMatch(m.rows[i]) && IsMatch(m.rows[k]) ==>
         m.rows[i].gold != m.rows[k].gold)
  }

  lemma MatchingIsGrounded(rules: Rules, preds: Predictions, m: Meeting)
    requires Matching(rules, preds, GoldMap(m.gold), m.rows)
    ensures Grounded(m)
  {
    MatchesHaveGold(rules, preds, GoldMap(m.gold), m.rows);
  }

  // ----- Gold tasks nobody matched

  function Unmatched(gold: seq<Gold>, matched: set<string>): seq<Gold> {
    if gold == [] then []
    else Unmatched(gold[..|gold| - 1], matched) + if gold[|gold| - 1].id in matched then [] else [gold[|gold| - 1]]
  }

  /** Those left over are as many as the misses counted. */
  lemma UnmatchedAreMisses(rules: Rules, m: Meeting)
    requires Grounded(m) && DistinctGold(m.gold)
    ensures |Unmatched(m.gold, MatchedIds(m.rows))| == CountsOf(rules, m.rows, m.gold).Fn()
    ensures forall g :: g in Unmatched(m.gold, MatchedIds(m.rows)) <==> g in m.gold && g.id !in MatchedIds(m.rows)
  {
    var matched := MatchedIds(m.rows);
    IdsCount(IsMatch, m.rows);
    GoldMapKeys(m.gold);
    UnmatchedSize(m.gold, matched);
    UnmatchedAre(m.gold, matched);
    assert matched * GoldIds(m.gold) == matched;
  }

  lemma {:induction false} UnmatchedSize(gold: seq<Gold>, matched: set<string>)
    requires DistinctGold(gold)
    ensures |Unmatched(gold, matched)| + |matched * GoldIds(gold)| == |gold|
  {
    if gold != [] {
      var front, last := gold[..|gold| - 1], gold[|gold| - 1];
      UnmatchedSize(front, matched);
      LastIdIsNew(gold);
      WithOneMore(matched, GoldIds(front), last.id);
    }
  }

  lemma LastIdIsNew(gold: seq<Gold>)
    requires DistinctGold(gold) && gold != []
    ensures var front, id := gold[..|gold| - 1], gold[|gold| - 1].id;
            GoldIds(gold) == GoldIds(front) + {id} && id !in GoldIds(front)
  {
  }

  lemma WithOneMore<T>(a: set<T>, b: set<T>, x: T)
    requires x !in b
    ensures |a * (b + {x})| == |a * b| + if x in a then 1 else 0
  {
    if x in a {
      assert a * (b + {x}) == a * b + {x};
    } else {
      assert a * (b + {x}) == a * b;
    }
  }

  lemma {:induction false} UnmatchedAre(gold: seq<Gold>, matched: set<string>)
    ensures forall g :: g in Unmatched(gold, matched) <==> g in gold && g.id !in matched
  {
    if gold != [] {
      UnmatchedAre(gold[..|gold| - 1], matched);
      assert gold == gold[..|gold| - 1] + [gold[|gold| - 1]];
    }
  }

  // ----- All meetings together

  function AllRows(ms: seq<Meeting>): seq<Row> {
    if ms == [] then [] else AllRows(ms[..|ms| - 1]) + ms[|ms| - 1].rows
  }

  function AllGold(ms: seq<Meeting>): seq<Gold> {
    if ms == [] then [] else AllGold(ms[..|ms| - 1]) + ms[|ms| - 1].gold
  }

  function Plus(a: Counts, b: Counts): Counts {
    Counts(a.tp + b.tp, a.rows + b.rows, a.gold + b.gold, a.discussion + b.discussion, a.ownerCorrect + b.ownerCorrect,
           a.ownerStated + b.ownerStated, a.ownerStatedCorrect + b.ownerStatedCorrect,
           a.ownerUnstated + b.ownerUnstated, a.ownerUnstatedCorrect + b.ownerUnstatedCorrect,
           a.deadlineStatedGold + b.deadlineStatedGold, a.deadlineStatedMatched + b.deadlineStatedMatched,
           a.deadlineCorrect + b.deadlineCorrect, a.abstentions + b.abstentions,
               a.abstentionsOnStated + b.abstentionsOnStated)
  }

  const NO_COUNTS := Counts(0, 0, 0, 0, 0, 0, 0, 0, 0, 0, 0, 0, 0, 0)

  function Sum(counts: seq<Counts>): Counts {
    if |counts| == 0 then NO_COUNTS else Plus(Sum(counts[..|counts| - 1]), counts[|counts| - 1])
  }

  function PerMeeting(rules: Rules, ms: seq<Meeting>): (r: seq<Counts>)
    ensures |r| == |ms| && forall i :: 0 <= i < |ms| ==> r[i] == CountsOf(rules, ms[i].rows, ms[i].gold)
  {
    seq(|ms|, i requires 0 <= i < |ms| => CountsOf(rules, ms[i].rows, ms[i].gold))
  }

  /** Among more gold tasks with other ids, a known id still finds its own task. */
  lemma {:induction false} GoldMapConcat(a: seq<Gold>, b: seq<Gold>)
    ensures GoldMap(a + b) == GoldMap(a) + GoldMap(b)
  {
    if b == [] {
      assert a + b == a;
    } else {
      GoldMapConcat(a, b[..|b| - 1]);
      assert (a + b)[..|a + b| - 1] == a + b[..|b| - 1];
    }
  }

  /** Counting with more gold tasks known changes nothing, as long as every matched id still finds the same task. */
  lemma CountsKnown(rules: Rules, rows: seq<Row>, golds: Golds, golds': Golds, gold: seq<Gold>)
    requires forall i :: 0 <= i < |rows| && IsMatch(rows[i]) ==>
               && rows[i].gold.Some? && rows[i].gold.value in golds && rows[i].gold.value in golds'
               && golds[rows[i].gold.value] == golds'[rows[i].gold.value]
    ensures CountsIn(rules, rows, golds, gold) == CountsIn(rules, rows, golds', gold)
  {
    CountKnown(rules, rows, golds, golds', OwnerStated(rules));
    CountKnown(rules, rows, golds, golds', OwnerUnstated(rules));
    CountKnown(rules, rows, golds, golds', DeadlineStated(rules));
  }

  lemma {:induction false} CountKnown(rules: Rules, rows: seq<Row>, golds: Golds, golds': Golds, p: Gold -> bool)
    requires forall i :: 0 <= i < |rows| && IsMatch(rows[i]) ==>
               && rows[i].gold.Some? && rows[i].gold.value in golds && rows[i].gold.value in golds'
               && golds[rows[i].gold.value] == golds'[rows[i].gold.value]
    ensures Count(MatchedWith(golds, p), rows) == Count(MatchedWith(golds', p), rows)
    ensures Count(Both(MatchedWith(golds, p), OwnerRight), rows)
            == Count(Both(MatchedWith(golds', p), OwnerRight), rows)
    ensures Count(Both(MatchedWith(golds, p), DeadlineRight(rules)), rows)
            == Count(Both(MatchedWith(golds', p), DeadlineRight(rules)), rows)
    ensures Count(Both(MatchedWith(golds, p), Abstained(rules)), rows)
            == Count(Both(MatchedWith(golds', p), Abstained(rules)), rows)
  {
    CountSame(MatchedWith(golds, p), rows, MatchedWith(golds', p), rows);
    CountSame(Both(MatchedWith(golds, p), OwnerRight), rows, Both(MatchedWith(golds', p), OwnerRight), rows);
    CountSame(Both(MatchedWith(golds, p), DeadlineRight(rules)), rows,
        Both(MatchedWith(golds', p), DeadlineRight(rules)), rows);
    CountSame(Both(MatchedWith(golds, p), Abstained(rules)), rows, Both(MatchedWith(golds', p), Abstained(rules)),
        rows);
  }

  lemma {:induction false} CountsOfTasksConcat(rules: Rules, a: seq<Row>, b: seq<Row>, q: Row -> bool)
    ensures Count(q, a + b) == Count(q, a) + Count(q, b)
    ensures Count(Both(q, OwnerRight), a + b) == Count(Both(q, OwnerRight), a) + Count(Both(q, OwnerRight), b)
    ensures Count(Both(q, DeadlineRight(rules)), a + b)
            == Count(Both(q, DeadlineRight(rules)), a) + Count(Both(q, DeadlineRight(rules)), b)
    ensures Count(Both(q, Abstained(rules)), a + b)
            == Count(Both(q, Abstained(rules)), a) + Count(Both(q, Abstained(rules)), b)
  {
    CountConcat(q, a, b);
    CountConcat(Both(q, OwnerRight), a, b);
    CountConcat(Both(q, DeadlineRight(rules)), a, b);
    CountConcat(Both(q, Abstained(rules)), a, b);
  }

  predicate RowsAdded(c: Counts, x: Counts, y: Counts) {
    && c.tp == x.tp + y.tp && c.rows == x.rows + y.rows && c.gold == x.gold + y.gold
    && c.discussion == x.discussion + y.discussion && c.ownerCorrect == x.ownerCorrect + y.ownerCorrect
    && c.abstentions == x.abstentions + y.abstentions
  }

  predicate OwnersAdded(c: Counts, x: Counts, y: Counts) {
    && c.ownerStated == x.ownerStated + y.ownerStated
    && c.ownerStatedCorrect == x.ownerStatedCorrect + y.ownerStatedCorrect
    && c.ownerUnstated == x.ownerUnstated + y.ownerUnstated
    && c.ownerUnstatedCorrect == x.ownerUnstatedCorrect + y.ownerUnstatedCorrect
  }

  predicate DeadlinesAdded(c: Counts, x: Counts, y: Counts) {
    && c.deadlineStatedGold == x.deadlineStatedGold + y.deadlineStatedGold
    && c.deadlineStatedMatched == x.deadlineStatedMatched + y.deadlineStatedMatched
    && c.deadlineCorrect == x.deadlineCorrect + y.deadlineCorrect
    && c.abstentionsOnStated == x.abstentionsOnStated + y.abstentionsOnStated
  }

  lemma AddedIsPlus(c: Counts, x: Counts, y: Counts)
    requires RowsAdded(c, x, y) && OwnersAdded(c, x, y) && DeadlinesAdded(c, x, y)
    ensures c == Plus(x, y)
  {
  }

  lemma RowsAdd(rules: Rules, a: seq<Row>, b: seq<Row>, golds: Golds, goldA: seq<Gold>, goldB: seq<Gold>)
    ensures RowsAdded(
              CountsIn(rules, a + b, golds, goldA + goldB),
              CountsIn(rules, a, golds, goldA), CountsIn(rules, b, golds, goldB))
  {
    CountsOfTasksConcat(rules, a, b, IsMatch);
    CountConcat((r: Row) => r.category == Discussion, a, b);
    CountConcat(Abstained(rules), a, b);
  }

  lemma OwnersAdd(rules: Rules, a: seq<Row>, b: seq<Row>, golds: Golds, goldA: seq<Gold>, goldB: seq<Gold>)
    ensures OwnersAdded(
              CountsIn(rules, a + b, golds, goldA + goldB),
              CountsIn(rules, a, golds, goldA), CountsIn(rules, b, golds, goldB))
  {
    CountsOfTasksConcat(rules, a, b, MatchedWith(golds, OwnerStated(rules)));
    CountsOfTasksConcat(rules, a, b, MatchedWith(golds, OwnerUnstated(rules)));
  }

  lemma DeadlinesAdd(rules: Rules, a: seq<Row>, b: seq<Row>, golds: Golds, goldA: seq<Gold>, goldB: seq<Gold>)
    ensures DeadlinesAdded(
              CountsIn(rules, a + b, golds, goldA + goldB),
              CountsIn(rules, a, golds, goldA), CountsIn(rules, b, golds, goldB))
  {
    CountsOfTasksConcat(rules, a, b, MatchedWith(golds, DeadlineStated(rules)));
    CountConcat(DeadlineStated(rules), goldA, goldB);
  }

  /** With the same tasks known, counts of two row lists add up. */
  lemma CountsConcat(rules: Rules, a: seq<Row>, b: seq<Row>, golds: Golds, goldA: seq<Gold>, goldB: seq<Gold>)
    ensures CountsIn(rules, a + b, golds, goldA + goldB)
            == Plus(CountsIn(rules, a, golds, goldA), CountsIn(rules, b, golds, goldB))
  {
    RowsAdd(rules, a, b, golds, goldA, goldB);
    OwnersAdd(rules, a, b, golds, goldA, goldB);
    DeadlinesAdd(rules, a, b, golds, goldA, goldB);
    AddedIsPlus(
              CountsIn(rules, a + b, golds, goldA + goldB),
              CountsIn(rules, a, golds, goldA), CountsIn(rules, b, golds, goldB));
  }

  ghost predicate AllGrounded(ms: seq<Meeting>) {
    forall i :: 0 <= i < |ms| ==> Grounded(ms[i])
  }

  lemma {:induction false} AllRowsGrounded(ms: seq<Meeting>)
    requires AllGrounded(ms)
    ensures var rows := AllRows(ms);
            forall i :: 0 <= i < |rows| && IsMatch(rows[i]) ==>
                rows[i].gold.Some? && rows[i].gold.value in GoldIds(AllGold(ms))
  {
    if ms != [] {
      var front, last := ms[..|ms| - 1], ms[|ms| - 1];
      AllRowsGrounded(front);
      GoldMapKeys(last.gold);
      var rows := AllRows(ms);
      forall i | 0 <= i < |rows| && IsMatch(rows[i])
        ensures rows[i].gold.Some? && rows[i].gold.value in GoldIds(AllGold(ms))
      {
        if i < |AllRows(front)| {
          assert rows[i] == AllRows(front)[i];
          InLarger(AllGold(front), last.gold, rows[i].gold.value);
        } else {
          assert Grounded(last) && rows[i] == last.rows[i - |AllRows(front)|];
          InLarger(AllGold(front), last.gold, rows[i].gold.value);
        }
      }
    }
  }

  lemma InLarger(a: seq<Gold>, b: seq<Gold>, id: string)
    ensures id in GoldIds(a + b) <==> id in GoldIds(a) || id in GoldIds(b)
  {
    if id in GoldIds(a) {
      var i :| 0 <= i < |a| && a[i].id == id;
      assert (a + b)[i].id == id;
    }
    if id in GoldIds(b) {
      var i :| 0 <= i < |b| && b[i].id == id;
      assert (a + b)[|a| + i].id == id;
    }
  }

  /** Distinct ids over both parts leave each part's ids distinct, and the parts without a common one. */
  lemma DistinctParts(a: seq<Gold>, b: seq<Gold>)
    requires DistinctGold(a + b)
    ensures DistinctGold(a) && DistinctGold(b) && GoldIds(a) !! GoldIds(b)
  {
    assert forall i :: 0 <= i < |a| ==> (a + b)[i] == a[i];
    assert forall i :: 0 <= i < |b| ==> (a + b)[|a| + i] == b[i];
  }

  lemma {:induction false} KnownInBoth(a: seq<Gold>, b: seq<Gold>, id: string)
    requires DistinctGold(a + b)
    ensures id in GoldMap(a) ==> id in GoldMap(a + b) && GoldMap(a + b)[id] == GoldMap(a)[id]
    ensures id in GoldMap(b) ==> id in GoldMap(a + b) && GoldMap(a + b)[id] == GoldMap(b)[id]
  {
    DistinctParts(a, b);
    GoldMapConcat(a, b);
    GoldMapKeys(a);
    GoldMapKeys(b);
  }

  /** Two parts with distinct gold ids are counted together as apart. */
  lemma {:induction false} PartsAdd(rules: Rules, a: seq<Row>, b: seq<Row>, goldA: seq<Gold>, goldB: seq<Gold>)
    requires DistinctGold(goldA + goldB)
    requires forall i :: 0 <= i < |a| && IsMatch(a[i]) ==> a[i].gold.Some? && a[i].gold.value in GoldMap(goldA)
    requires forall i :: 0 <= i < |b| && IsMatch(b[i]) ==> b[i].gold.Some? && b[i].gold.value in GoldMap(goldB)
    ensures CountsOf(rules, a + b, goldA + goldB) == Plus(CountsOf(rules, a, goldA), CountsOf(rules, b, goldB))
  {
    var golds := GoldMap(goldA + goldB);
    forall i | 0 <= i < |a| && IsMatch(a[i])
      ensures a[i].gold.value in golds && golds[a[i].gold.value] == GoldMap(goldA)[a[i].gold.value]
    {
      KnownInBoth(goldA, goldB, a[i].gold.value);
    }
    forall i | 0 <= i < |b| && IsMatch(b[i])
      ensures b[i].gold.value in golds && golds[b[i].gold.value] == GoldMap(goldB)[b[i].gold.value]
    {
      KnownInBoth(goldA, goldB, b[i].gold.value);
    }
    CountsKnown(rules, a, GoldMap(goldA), golds, goldA);
    CountsKnown(rules, b, GoldMap(goldB), golds, goldB);
    CountsConcat(rules, a, b, golds, goldA, goldB);
  }

  /** With globally distinct gold ids, the micro counts are the sums of the counts of the meetings. */
  lemma {:induction false} MicroIsSum(rules: Rules, ms: seq<Meeting>)
    requires AllGrounded(ms) && DistinctGold(AllGold(ms))
    ensures CountsOf(rules, AllRows(ms), AllGold(ms)) == Sum(PerMeeting(rules, ms))
  {
    if ms != [] {
      var front, last := ms[..|ms| - 1], ms[|ms| - 1];
      DistinctParts(AllGold(front), last.gold);
      MicroIsSum(rules, front);
      AllRowsGrounded(front);
      GoldMapKeys(AllGold(front));
      PartsAdd(rules, AllRows(front), last.rows, AllGold(front), last.gold);
      assert PerMeeting(rules, ms)[..|ms| - 1] == PerMeeting(rules, front);
    }
  }

  // ----- The loop over the meetings

  datatype Line = Judgement(meeting: nat, row: Row) | Missed(meeting: nat, gold: Gold)

  function JudgedLines(lines: seq<Line>): seq<Row> {
    if lines == [] then []
    else JudgedLines(lines[..|lines| - 1]) + if lines[|lines| - 1].Judgement? then [lines[|lines| - 1].row] else []
  }

  lemma {:induction false} JudgedConcat(a: seq<Line>, b: seq<Line>)
    ensures JudgedLines(a + b) == JudgedLines(a) + JudgedLines(b)
  {
    if b == [] {
      assert a + b == a;
    } else {
      JudgedConcat(a, b[..|b| - 1]);
      assert (a + b)[..|a + b| - 1] == a + b[..|b| - 1];
    }
  }

  function IsMissed(line: Line): bool { line.Missed? }

  /** The gold tasks nobody matched, one line each. */
  method MissedLines(meeting: nat, gold: seq<Gold>, matched: set<string>) returns (lines: seq<Line>)
    ensures JudgedLines(lines) == [] && Count(IsMissed, lines) == |Unmatched(gold, matched)|
    ensures forall g :: Missed(meeting, g) in lines <==> g in Unmatched(gold, matched)
    ensures forall line :: line in lines ==> line.meeting == meeting
  {
    lines := [];
    for i := 0 to |gold|
      invariant JudgedLines(lines) == [] && Count(IsMissed, lines) == |Unmatched(gold[..i], matched)|
      invariant forall g :: Missed(meeting, g) in lines <==> g in Unmatched(gold[..i], matched)
      invariant forall line :: line in lines ==> line.meeting == meeting
    {
      assert gold[..i + 1][..i] == gold[..i];
      if gold[i].id !in matched {
        lines := lines + [Missed(meeting, gold[i])];
      }
    }
    assert gold[..|gold|] == gold;
  }

  /** One meeting's lines: every judged row, then one for each gold task nobody matched. */
  method MeetingLines(meeting: nat, m: Meeting) returns (lines: seq<Line>)
    ensures JudgedLines(lines) == m.rows
    ensures Count(IsMissed, lines) == |Unmatched(m.gold, MatchedIds(m.rows))|
    ensures forall g :: Missed(meeting, g) in lines <==> g in Unmatched(m.gold, MatchedIds(m.rows))
    ensures forall line :: line in lines ==> line.meeting == meeting
  {
    lines := [];
    for i := 0 to |m.rows|
      invariant JudgedLines(lines) == m.rows[..i] && Count(IsMissed, lines) == 0
      invariant forall line :: line in lines ==> line.Judgement? && line.meeting == meeting
    {
      lines := lines + [Judgement(meeting, m.rows[i])];
    }
    assert m.rows[..|m.rows|] == m.rows;
    var missed := MissedLines(meeting, m.gold, MatchedIds(m.rows));
    JudgedConcat(lines, missed);
    CountConcat(IsMissed, lines, missed);
    lines := lines + missed;
  }

  lemma PerMeetingOneMore(rules: Rules, ms: seq<Meeting>, m: Meeting)
    ensures PerMeeting(rules, ms + [m]) == PerMeeting(rules, ms) + [CountsOf(rules, m.rows, m.gold)]
  {
  }

  lemma {:induction false} SumOneMore(counts: seq<Counts>, c: Counts)
    ensures Sum(counts + [c]) == Plus(Sum(counts), c) && Sum(counts + [c]).Fn() == Sum(counts).Fn() + c.Fn()
  {
    assert (counts + [c])[..|counts|] == counts;
  }

  lemma {:induction false} AllDistinct(ms: seq<Meeting>, i: nat)
    requires DistinctGold(AllGold(ms)) && i < |ms|
    ensures DistinctGold(ms[i].gold)
  {
    var front, last := ms[..|ms| - 1], ms[|ms| - 1];
    DistinctParts(AllGold(front), last.gold);
    if i < |front| {
      AllDistinct(front, i);
    }
  }

  /** A gold task is listed as missed under a meeting exactly when no row of that meeting matches it. */
  ghost predicate MissedAre(ms: seq<Meeting>, lines: seq<Line>) {
    forall i: nat, g {:trigger Missed(i, g)} ::
      Missed(i, g) in lines <==> i < |ms| && g in ms[i].gold && g.id !in MatchedIds(ms[i].rows)
  }

  lemma MissedOneMore(ms: seq<Meeting>, m: Meeting, lines: seq<Line>, more: seq<Line>)
    requires MissedAre(ms, lines) && forall line :: line in more ==> line.meeting == |ms|
    requires forall g :: Missed(|ms|, g) in more <==> g in m.gold && g.id !in MatchedIds(m.rows)
    ensures MissedAre(ms + [m], lines + more)
  {
    forall i: nat, g
      ensures Missed(i, g) in lines + more <==>
              i < |ms + [m]| && g in (ms + [m])[i].gold && g.id !in MatchedIds((ms + [m])[i].rows)
    {
      assert Missed(i, g) in lines + more <==> Missed(i, g) in lines || Missed(i, g) in more;
      if Missed(i, g) in more {
        assert Missed(i, g).meeting == |ms|;
      }
    }
  }

  /** Where the loop stands after the meetings `ms`. */
  ghost predicate Standing(rules: Rules, ms: seq<Meeting>, perMeeting: seq<Counts>, lines: seq<Line>) {
    && perMeeting == PerMeeting(rules, ms) && JudgedLines(lines) == AllRows(ms)
    && Count(IsMissed, lines) == Sum(PerMeeting(rules, ms)).Fn()
  }

  lemma {:induction false} LinesOneMore(perMeeting: seq<Counts>, c: Counts, lines: seq<Line>, more: seq<Line>)
    requires Count(IsMissed, lines) == Sum(perMeeting).Fn() && Count(IsMissed, more) == c.Fn()
    ensures JudgedLines(lines + more) == JudgedLines(lines) + JudgedLines(more)
    ensures Count(IsMissed, lines + more) == Sum(perMeeting + [c]).Fn()
  {
    JudgedConcat(lines, more);
    CountConcat(IsMissed, lines, more);
    SumOneMore(perMeeting, c);
  }

  lemma {:induction false} AllRowsOneMore(ms: seq<Meeting>, m: Meeting)
    ensures AllRows(ms + [m]) == AllRows(ms) + m.rows
  {
    assert (ms + [m])[..|ms|] == ms;
  }

  lemma {:induction false} StandOneMore(
      rules: Rules, ms: seq<Meeting>, m: Meeting, perMeeting: seq<Counts>, lines: seq<Line>, more: seq<Line>, c: Counts)
    requires Standing(rules, ms, perMeeting, lines) && JudgedLines(more) == m.rows
    requires c == CountsOf(rules, m.rows, m.gold) && Count(IsMissed, more) == c.Fn()
    ensures Standing(rules, ms + [m], perMeeting + [c], lines + more)
  {
    LinesOneMore(perMeeting, c, lines, more);
    AllRowsOneMore(ms, m);
    PerMeetingOneMore(rules, ms, m);
  }

  lemma NothingYet(rules: Rules, none: seq<Meeting>, perMeeting: seq<Counts>, lines: seq<Line>)
    requires |none| == |perMeeting| == |lines| == 0
    ensures Standing(rules, none, perMeeting, lines) && MissedAre(none, lines)
  {
  }

  lemma AllDone(rules: Rules, ms: seq<Meeting>, perMeeting: seq<Counts>, lines: seq<Line>)
    requires Standing(rules, ms[..|ms|], perMeeting, lines) && MissedAre(ms[..|ms|], lines)
    ensures Standing(rules, ms, perMeeting, lines) && MissedAre(ms, lines)
  {
    assert ms[..|ms|] == ms;
  }

  lemma PrefixOneMore<T>(s: seq<T>, i: nat)
    requires i < |s|
    ensures s[..i + 1] == s[..i] + [s[i]] && |s[..i]| == i
  {
  }

  /** One more meeting: its counts, and its lines behind those before. */
  method EvaluateOne(rules: Rules, ms: seq<Meeting>, i: nat, perMeeting: seq<Counts>, lines: seq<Line>)
      returns (perMeeting': seq<Counts>, lines': seq<Line>)
    requires i < |ms| && CanScore(ms, i)
    requires Standing(rules, ms[..i], perMeeting, lines) && MissedAre(ms[..i], lines)
    ensures Standing(rules, ms[..i + 1], perMeeting', lines') && MissedAre(ms[..i + 1], lines')
  {
    var m := ms[i];
    PrefixOneMore(ms, i);
    UnmatchedAreMisses(rules, m);
    var more := MeetingLines(i, m);
    StandOneMore(rules, ms[..i], m, perMeeting, lines, more, CountsOf(rules, m.rows, m.gold));
    MissedOneMore(ms[..i], m, lines, more);
    perMeeting' := perMeeting + [CountsOf(rules, m.rows, m.gold)];
    lines' := lines + more;
  }

  method NoLines(rules: Rules, ghost ms: seq<Meeting>) returns (perMeeting: seq<Counts>, lines: seq<Line>)
    ensures Standing(rules, ms[..0], perMeeting, lines) && MissedAre(ms[..0], lines)
  {
    perMeeting, lines := [], [];
    NothingYet(rules, ms[..0], perMeeting, lines);
  }

  ghost predicate CanScore(ms: seq<Meeting>, i: nat) {
    i < |ms| ==> Grounded(ms[i]) && DistinctGold(ms[i].gold)
  }

  /** The loop over the meetings. */
  method EvaluateAll(rules: Rules, ms: seq<Meeting>) returns (perMeeting: seq<Counts>, lines: seq<Line>)
    requires forall i: nat {:trigger CanScore(ms, i)} :: CanScore(ms, i)
    ensures Standing(rules, ms, perMeeting, lines) && MissedAre(ms, lines)
  {
    perMeeting, lines := NoLines(rules, ms);
    for i := 0 to |ms|
      invariant Standing(rules, ms[..i], perMeeting, lines) && MissedAre(ms[..i], lines)
    {
      assert CanScore(ms, i);
      perMeeting, lines := EvaluateOne(rules, ms, i, perMeeting, lines);
    }
    AllDone(rules, ms, perMeeting, lines);
  }

  /**
   The evaluation of one system: counts for each meeting, all lines, and the micro counts taken over the judged lines
   alone. The micro counts are the sums; the lines without a judgement are the gold tasks no row of their meeting
   matches, as many as the misses.
   */
  method Evaluate(rules: Rules, ms: seq<Meeting>) returns (perMeeting: seq<Counts>, lines: seq<Line>, micro: Counts)
    requires AllGrounded(ms) && DistinctGold(AllGold(ms))
    ensures perMeeting == PerMeeting(rules, ms) && micro == Sum(perMeeting)
    ensures JudgedLines(lines) == AllRows(ms) && Count(IsMissed, lines) == micro.Fn() && MissedAre(ms, lines)
  {
    forall i: nat ensures CanScore(ms, i) {
      if i < |ms| {
        AllDistinct(ms, i);
      }
    }
    perMeeting, lines := EvaluateAll(rules, ms);
    MicroIsSum(rules, ms);
    micro := CountsOf(rules, JudgedLines(lines), AllGold(ms));
  }
}
