/** From the judge's answers to the report: every answer accepted, its rows reviewed, counted and summed. */
module Evaluation {
  import opened Basics
  import opened Judging
  import opened FieldReview
  import opened Scoring
  import opened MicroScoring

  // ----- What the field review leaves as it is

  /** The same rows, apart from the credit for owners and deadlines. */
  ghost predicate SameButCredit(rows: seq<Row>, after: seq<Row>) {
    && |after| == |rows|
    && forall i :: 0 <= i < |rows| ==>
         after[i] == rows[i].(ownerCorrect := after[i].ownerCorrect, deadlineCorrect := after[i].deadlineCorrect)
  }

  lemma ReviewIsOfCredit(rules: Rules, fields: FieldRules, preds: Predictions, golds: Golds, rows: seq<Row>,
                         after: seq<Row>)
    requires after == ReviewedAll(rules, fields, preds, golds, rows)
    ensures SameButCredit(rows, after)
  {
  }

  ghost predicate IgnoresCredit(q: Row -> bool) {
    forall r: Row, owner, deadline :: q(r.(ownerCorrect := owner, deadlineCorrect := deadline)) == q(r)
  }

  lemma {:induction false} SameCounted(q: Row -> bool, rows: seq<Row>, after: seq<Row>)
    requires SameButCredit(rows, after) && IgnoresCredit(q)
    ensures Count(q, after) == Count(q, rows)
  {
    forall i | 0 <= i < |rows| ensures q(after[i]) == q(rows[i]) {
      assert q(rows[i].(ownerCorrect := after[i].ownerCorrect, deadlineCorrect := after[i].deadlineCorrect))
          == q(rows[i]);
    }
    CountSame(q, rows, q, after);
  }

  /** The review changes credit for fields and nothing else. */
  lemma ReviewKeepsScores(
      rules: Rules, fields: FieldRules, preds: Predictions, golds: Golds, rows: seq<Row>, after: seq<Row>,
      gold: seq<Gold>)
    requires after == ReviewedAll(rules, fields, preds, golds, rows)
    ensures var c, d := CountsOf(rules, rows, gold), CountsOf(rules, after, gold);
            && d == c.(ownerCorrect := d.ownerCorrect, ownerStatedCorrect := d.ownerStatedCorrect,
                       ownerUnstatedCorrect := d.ownerUnstatedCorrect, deadlineCorrect := d.deadlineCorrect)
            && d.tp == c.tp && d.Fp() == c.Fp() && d.Fn() == c.Fn()
  {
    ReviewIsOfCredit(rules, fields, preds, golds, rows, after);
    CreditAside(rules, rows, after, gold);
  }

  lemma CreditAside(rules: Rules, rows: seq<Row>, after: seq<Row>, gold: seq<Gold>)
    requires SameButCredit(rows, after)
    ensures var c, d := CountsOf(rules, rows, gold), CountsOf(rules, after, gold);
            d == c.(ownerCorrect := d.ownerCorrect, ownerStatedCorrect := d.ownerStatedCorrect,
                    ownerUnstatedCorrect := d.ownerUnstatedCorrect, deadlineCorrect := d.deadlineCorrect)
  {
    var known := GoldMap(gold);
    SameCounted(IsMatch, rows, after);
    SameCounted((r: Row) => r.category == Discussion, rows, after);
    SameCounted(MatchedWith(known, OwnerStated(rules)), rows, after);
    SameCounted(MatchedWith(known, OwnerUnstated(rules)), rows, after);
    SameCounted(MatchedWith(known, DeadlineStated(rules)), rows, after);
    SameCounted(Abstained(rules), rows, after);
    SameCounted(Both(MatchedWith(known, DeadlineStated(rules)), Abstained(rules)), rows, after);
  }

  // ----- One meeting

  /** The predictions and gold tasks of one meeting, and what the judge answered; `inText` looks in its transcript. */
  datatype Answered = Answered(
    inText: string -> bool, fields: FieldRules, predictions: seq<Prediction>, gold: seq<Gold>,
    translations: seq<Option<string>>, answer: seq<ReviewedRow>)

  function RulesFor(rules: Rules, a: Answered): Rules {
    rules.(inText := a.inText)
  }

  ghost predicate Acceptable(rules: Rules, a: Answered) {
    ReviewAccepted(RulesFor(rules, a), PredictionMap(a.predictions), a.gold, a.translations, a.answer)
  }

  /** The meeting as it is scored: the rows of the judge's answer after the field review. */
  ghost predicate IsReviewed(rules: Rules, a: Answered, m: Meeting) {
    && Acceptable(rules, a) && m.gold == a.gold
    && exists bare: seq<Row> :: RowsOf(PredictionMap(a.predictions), Bases(a.answer), bare)
         && ReviewedFrom(rules, a, bare, m)
  }

  ghost predicate ReviewedFrom(rules: Rules, a: Answered, bare: seq<Row>, m: Meeting) {
    m.rows == ReviewedAll(RulesFor(rules, a), a.fields, PredictionMap(a.predictions), GoldMap(a.gold), bare)
  }

  method Review(rules: Rules, a: Answered) returns (r: Result<Meeting, string>)
    ensures r.Ok? <==> Acceptable(rules, a)
    ensures r.Ok? ==> IsReviewed(rules, a, r.value)
  {
    var preds, golds := PredictionMap(a.predictions), GoldMap(a.gold);
    var validated, repeats := ReviewJudgments(RulesFor(rules, a), a.predictions, a.gold, a.translations, a.answer);
    if validated.Err? {
      return Err(validated.error);
    }
    var bare := validated.value;
    var rows := new Row[|bare|](i requires 0 <= i < |bare| => bare[i]);
    assert rows[..] == bare;
    AcceptedIsMatching(RulesFor(rules, a), preds, golds, Bases(a.answer), bare);
    var notes := ReviewFields(RulesFor(rules, a), a.fields, rows, a.predictions, a.gold);
    assert ReviewedFrom(rules, a, bare, Meeting(rows[..], a.gold));
    return Ok(Meeting(rows[..], a.gold));
  }

  /** A gold task is translated once, so an accepted answer is about gold tasks with different ids. */
  lemma {:induction false} AcceptedGoldDistinct(rules: Rules, a: Answered)
    requires Acceptable(rules, a)
    ensures DistinctGold(a.gold)
  {
    var ids, golds := a.translations, GoldMap(a.gold);
    TranslatedIds(ids, |ids|);
    assert IdsIn(ids, |ids|) == golds.Keys;
    GoldMapSize(a.gold);
  }

  /** Translations are in order exactly when every gold task has an id of its own and is translated, and no more are. */
  lemma {:induction false} TranslatedIff(gold: seq<Gold>, ids: seq<Option<string>>)
    ensures Translated(GoldMap(gold), gold, ids) <==>
              DistinctGold(gold) && |ids| == |gold| && forall k :: 0 <= k < |gold| ==> Some(gold[k].id) in ids
  {
    GoldMapSize(gold);
    GoldMapKeys(gold);
    if Translated(GoldMap(gold), gold, ids) {
      TranslatedIds(ids, |ids|);
      assert IdsIn(ids, |ids|) == GoldMap(gold).Keys;
    }
    if DistinctGold(gold) && |ids| == |gold| && (forall k :: 0 <= k < |gold| ==> Some(gold[k].id) in ids) {
      AllNeeded(gold, ids);
    }
  }

  /** As many ids as gold tasks, and each gold task's among them: then there is no other and none stands twice. */
  lemma {:induction false} AllNeeded(gold: seq<Gold>, ids: seq<Option<string>>)
    requires DistinctGold(gold) && |ids| == |gold| && forall k :: 0 <= k < |gold| ==> Some(gold[k].id) in ids
    ensures Translated(GoldMap(gold), gold, ids)
  {
    GoldMapSize(gold);
    GoldMapKeys(gold);
    IdsAtMost(ids, |ids|);
    assert GoldIds(gold) <= IdsIn(ids, |ids|);
    if GoldIds(gold) != IdsIn(ids, |ids|) {
      Smaller(GoldIds(gold), IdsIn(ids, |ids|));
    }
  }

  lemma Smaller(a: set<string>, b: set<string>)
    requires a < b
    ensures |a| < |b|
  {
    assert b == a + (b - a);
    assert b - a != {};
  }

  /** There are no more ids than places, and as many only if none is missing or stands twice. */
  lemma {:induction false} IdsAtMost(ids: seq<Option<string>>, n: nat)
    requires n <= |ids|
    ensures |IdsIn(ids, n)| <= n
    ensures |IdsIn(ids, n)| == n ==> forall i :: 0 <= i < n ==> ids[i].Some?
    ensures |IdsIn(ids, n)| == n ==> forall i, k :: 0 <= i < k < n ==> ids[i] != ids[k]
  {
    if n > 0 {
      IdsAtMost(ids, n - 1);
      var last := ids[n - 1];
      if last.Some? && last.value !in IdsIn(ids, n - 1) {
        assert IdsIn(ids, n) == IdsIn(ids, n - 1) + {last.value};
      } else {
        assert IdsIn(ids, n) == IdsIn(ids, n - 1);
      }
    }
  }

  function IdsIn(ids: seq<Option<string>>, n: nat): set<string>
    requires n <= |ids|
  {
    set i | 0 <= i < n && ids[i].Some? :: ids[i].value
  }

  lemma {:induction false} TranslatedIds(ids: seq<Option<string>>, n: nat)
    requires n <= |ids| && (forall i :: 0 <= i < |ids| ==> ids[i].Some?)
    requires forall i, k :: 0 <= i < k < |ids| ==> ids[i] != ids[k]
    ensures |IdsIn(ids, n)| == n
  {
    if n > 0 {
      TranslatedIds(ids, n - 1);
      assert IdsIn(ids, n) == IdsIn(ids, n - 1) + {ids[n - 1].value};
    }
  }

  lemma BareIsMatching(rules: Rules, a: Answered, bare: seq<Row>)
    requires Acceptable(rules, a) && RowsOf(PredictionMap(a.predictions), Bases(a.answer), bare)
    ensures Matching(RulesFor(rules, a), PredictionMap(a.predictions), GoldMap(a.gold), bare)
  {
    AcceptedIsMatching(RulesFor(rules, a), PredictionMap(a.predictions), GoldMap(a.gold), Bases(a.answer), bare);
  }

  lemma GroundedAfter(bare: seq<Row>, m: Meeting)
    requires Grounded(Meeting(bare, m.gold)) && SameButCredit(bare, m.rows)
    ensures Grounded(m)
  {
    assert forall i :: 0 <= i < |bare| ==> m.rows[i].gold == bare[i].gold && IsMatch(m.rows[i]) == IsMatch(bare[i]);
  }

  /** The rows that are scored differ from the judge's in their credit alone. */
  lemma BareRows(rules: Rules, a: Answered, m: Meeting) returns (bare: seq<Row>)
    requires IsReviewed(rules, a, m)
    ensures RowsOf(PredictionMap(a.predictions), Bases(a.answer), bare) && SameButCredit(bare, m.rows)
  {
    bare :| RowsOf(PredictionMap(a.predictions), Bases(a.answer), bare) && ReviewedFrom(rules, a, bare, m);
    ReviewIsOfCredit(RulesFor(rules, a), a.fields, PredictionMap(a.predictions), GoldMap(a.gold), bare, m.rows);
  }

  lemma ReviewedIsGrounded(rules: Rules, a: Answered, m: Meeting)
    requires IsReviewed(rules, a, m)
    ensures Grounded(m)
  {
    var bare := BareRows(rules, a, m);
    BareIsMatching(rules, a, bare);
    MatchingIsGrounded(RulesFor(rules, a), PredictionMap(a.predictions), Meeting(bare, a.gold));
    GroundedAfter(bare, m);
  }

  function SaysMatch(r: ReviewedRow): bool { r.Reviewable? && r.row.category == Match }

  /** How many matches the judge gave, how many predictions there were, and how many gold tasks. */
  datatype Tally = Tally(matches: nat, predictions: nat, gold: nat)

  function TallyOf(a: Answered): Tally {
    Tally(Count(SaysMatch, a.answer), |a.predictions|, |a.gold|)
  }

  /**
   True positives are the judge's matches; with the false positives all predictions, with the misses all gold tasks.
   */
  ghost predicate Conserves(c: Counts, t: Tally) {
    c.tp == t.matches && c.tp + c.Fp() == t.predictions && c.tp + c.Fn() == t.gold && c.Fp() >= 0 && c.Fn() >= 0
  }

  lemma {:induction false} BareMatches(preds: Predictions, answer: seq<ReviewedRow>, bare: seq<Row>)
    requires AllReviewable(answer) && RowsOf(preds, Bases(answer), bare)
    ensures Count(IsMatch, bare) == Count(SaysMatch, answer)
  {
    forall i | 0 <= i < |answer| ensures SaysMatch(answer[i]) == IsMatch(bare[i]) {
      assert bare[i] == RowOf(preds, Bases(answer)[i]);
    }
    CountSame(SaysMatch, answer, IsMatch, bare);
  }

  /** Whatever the field review did. */
  lemma {:induction false} MeetingConserves(rules: Rules, a: Answered, m: Meeting)
    requires IsReviewed(rules, a, m) && DistinctPredictions(a.predictions)
    ensures Conserves(CountsOf(rules, m.rows, m.gold), TallyOf(a))
  {
    var bare := BareRows(rules, a, m);
    BareIsMatching(rules, a, bare);
    BareMatches(PredictionMap(a.predictions), a.answer, bare);
    CountsConserved(RulesFor(rules, a), a.predictions, a.gold, bare);
    SameCounted(IsMatch, bare, m.rows);
  }

  // ----- All meetings of one system

  datatype Report = Report(meetings: seq<Meeting>, perMeeting: seq<Counts>, lines: seq<Line>, micro: Counts)

  function GoldOf(answers: seq<Answered>): seq<Gold> {
    if |answers| == 0 then [] else GoldOf(answers[..|answers| - 1]) + answers[|answers| - 1].gold
  }

  ghost predicate AllReviewed(rules: Rules, answers: seq<Answered>, ms: seq<Meeting>) {
    |ms| == |answers| && forall i :: 0 <= i < |ms| ==> IsReviewed(rules, answers[i], ms[i])
  }

  lemma {:induction false} SameGold(rules: Rules, answers: seq<Answered>, ms: seq<Meeting>)
    requires AllReviewed(rules, answers, ms)
    ensures AllGold(ms) == GoldOf(answers)
  {
    if ms != [] {
      SameGold(rules, answers[..|ms| - 1], ms[..|ms| - 1]);
      assert IsReviewed(rules, answers[|ms| - 1], ms[|ms| - 1]);
    }
  }

  /** The rows of every meeting, unless some answer is refused. */
  method ReviewAll(rules: Rules, answers: seq<Answered>) returns (r: Result<seq<Meeting>, string>)
    ensures r.Ok? <==> forall i :: 0 <= i < |answers| ==> Acceptable(rules, answers[i])
    ensures r.Ok? ==> AllReviewed(rules, answers, r.value)
  {
    var ms: seq<Meeting> := [];
    for i := 0 to |answers|
      invariant |ms| == i && forall k :: 0 <= k < i ==> IsReviewed(rules, answers[k], ms[k])
    {
      var reviewed := Review(rules, answers[i]);
      if reviewed.Err? {
        return Err(reviewed.error);
      }
      ms := ms + [reviewed.value];
    }
    return Ok(ms);
  }

  ghost predicate Reported(rules: Rules, answers: seq<Answered>, report: Report) {
    && AllReviewed(rules, answers, report.meetings)
    && report.perMeeting == PerMeeting(rules, report.meetings) && report.micro == Sum(report.perMeeting)
    && JudgedLines(report.lines) == AllRows(report.meetings) && Count(IsMissed, report.lines) == report.micro.Fn()
    && MissedAre(report.meetings, report.lines)
  }

  /** A report is made exactly when every answer is accepted. */
  method Evaluated(rules: Rules, answers: seq<Answered>) returns (r: Result<Report, string>)
    requires DistinctGold(GoldOf(answers))
    ensures r.Ok? <==> forall i :: 0 <= i < |answers| ==> Acceptable(rules, answers[i])
    ensures r.Ok? ==> Reported(rules, answers, r.value)
  {
    var reviewed := ReviewAll(rules, answers);
    if reviewed.Err? {
      return Err(reviewed.error);
    }
    var ms := reviewed.value;
    SameGold(rules, answers, ms);
    forall i | 0 <= i < |ms| ensures Grounded(ms[i]) {
      ReviewedIsGrounded(rules, answers[i], ms[i]);
    }
    var perMeeting, lines, micro := Evaluate(rules, ms);
    return Ok(Report(ms, perMeeting, lines, micro));
  }

  function TallyAll(answers: seq<Answered>): Tally {
    if |answers| == 0 then Tally(0, 0, 0)
    else
      var t, u := TallyAll(answers[..|answers| - 1]), TallyOf(answers[|answers| - 1]);
      Tally(t.matches + u.matches, t.predictions + u.predictions, t.gold + u.gold)
  }

  ghost predicate EachConserves(counts: seq<Counts>, answers: seq<Answered>) {
    |counts| == |answers| && forall i :: 0 <= i < |counts| ==> Conserves(counts[i], TallyOf(answers[i]))
  }

  lemma ZeroConserves(c: Counts, t: Tally)
    requires c.tp == c.rows == c.gold == 0 && t.matches == t.predictions == t.gold == 0
    ensures Conserves(c, t)
  {
  }

  lemma {:induction false} SumConserves(counts: seq<Counts>, answers: seq<Answered>)
    requires EachConserves(counts, answers)
    ensures Conserves(Sum(counts), TallyAll(answers))
  {
    if |counts| == 0 {
      ZeroConserves(Sum(counts), TallyAll(answers));
    } else {
      var n := |counts| - 1;
      assert Conserves(counts[n], TallyOf(answers[n]));
      SumConserves(counts[..n], answers[..n]);
    }
  }

  /** From the judge's answers to the micro counts. */
  lemma {:induction false} ReportConserves(rules: Rules, answers: seq<Answered>, ms: seq<Meeting>)
    requires AllReviewed(rules, answers, ms)
    requires forall i :: 0 <= i < |answers| ==> DistinctPredictions(answers[i].predictions)
    ensures Conserves(Sum(PerMeeting(rules, ms)), TallyAll(answers))
  {
    var counts := PerMeeting(rules, ms);
    forall i | 0 <= i < |counts| ensures Conserves(counts[i], TallyOf(answers[i])) {
      MeetingConserves(rules, answers[i], ms[i]);
    }
    SumConserves(counts, answers);
  }
}
