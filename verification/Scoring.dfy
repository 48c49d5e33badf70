/** Counting accepted rows: for each meeting, over all meetings, and what the counts conserve. */
module Scoring {
  import opened Basics
  import opened Judging

  /** Everything the metrics are made of. */
  datatype Counts = Counts(
    tp: nat, rows: nat, gold: nat, discussion: nat, ownerCorrect: nat, ownerStated: nat, ownerStatedCorrect: nat,
    ownerUnstated: nat, ownerUnstatedCorrect: nat, deadlineStatedGold: nat, deadlineStatedMatched: nat,
    deadlineCorrect: nat,
    abstentions: nat, abstentionsOnStated: nat)
  {
    function Fp(): int { rows - tp }
    function Fn(): int { gold - tp }
    function Precision(): Option<real> { Ratio(tp, tp + Fp()) }
    function Recall(): Option<real> { Ratio(tp, tp + Fn()) }
    function F1(): Option<real> { Ratio(2 * tp, 2 * tp + Fp() + Fn()) }
  }

  function Ratio(numerator: int, denominator: int): Option<real> {
    if denominator == 0 then None else Some(numerator as real / denominator as real)
  }

  // ----- What is counted

  /** A matched row whose gold task satisfies `p`. */
  function MatchedWith(golds: Golds, p: Gold -> bool): Row -> bool {
    (r: Row) => IsMatch(r) && r.gold.Some? && r.gold.value in golds && p(golds[r.gold.value])
  }

  function Both(p: Row -> bool, q: Row -> bool): Row -> bool {
    (r: Row) => p(r) && q(r)
  }

  function OwnerRight(r: Row): bool { r.ownerCorrect }

  function OwnerStated(rules: Rules): Gold -> bool { (g: Gold) => g.owner != rules.unstated }

  function OwnerUnstated(rules: Rules): Gold -> bool { (g: Gold) => g.owner == rules.unstated }

  function DeadlineStated(rules: Rules): Gold -> bool { (g: Gold) => !rules.abstains(g.deadline) }

  function Abstained(rules: Rules): Row -> bool { (r: Row) => rules.abstains(r.predictedDeadline) }

  function DeadlineRight(rules: Rules): Row -> bool { (r: Row) => r.deadlineCorrect
      && !rules.abstains(r.predictedDeadline) }

  function CountsIn(rules: Rules, rows: seq<Row>, golds: Golds, gold: seq<Gold>): Counts {
    var stated, unstated, dated :=
      MatchedWith(golds, OwnerStated(rules)), MatchedWith(golds, OwnerUnstated(rules)),
          MatchedWith(golds, DeadlineStated(rules));
    Counts(
      Count(IsMatch, rows), |rows|, |gold|, Count((r: Row) => r.category == Discussion, rows),
      Count(Both(IsMatch, OwnerRight), rows),
      Count(stated, rows), Count(Both(stated, OwnerRight), rows),
      Count(unstated, rows), Count(Both(unstated, OwnerRight), rows),
      Count(DeadlineStated(rules), gold), Count(dated, rows), Count(Both(dated, DeadlineRight(rules)), rows),
      Count(Abstained(rules), rows), Count(Both(dated, Abstained(rules)), rows))
  }

  function CountsOf(rules: Rules, rows: seq<Row>, gold: seq<Gold>): Counts {
    CountsIn(rules, rows, GoldMap(gold), gold)
  }

  // ----- What each row adds

  function One(b: bool): nat {
    if b then 1 else 0
  }

  /** The gold task of a matched row. */
  predicate MatchedTo(golds: Golds, r: Row, g: Gold) {
    r.category == Match && r.gold.Some? && r.gold.value in golds && golds[r.gold.value] == g
  }

  /** Without rows everything about rows is nought. */
  lemma NoRows(rules: Rules, rows: seq<Row>, golds: Golds, gold: seq<Gold>)
    requires |rows| == 0
    ensures var c := CountsIn(rules, rows, golds, gold);
            c == Counts(0, 0, |gold|, 0, 0, 0, 0, 0, 0, c.deadlineStatedGold, 0, 0, 0, 0)
  {
  }

  /** A row that is no match is a row, perhaps a discussion, perhaps an abstention. */
  lemma UnmatchedAdds(rules: Rules, rows: seq<Row>, r: Row, golds: Golds, gold: seq<Gold>)
    requires r.category != Match
    ensures var c := CountsIn(rules, rows, golds, gold);
            CountsIn(rules, rows + [r], golds, gold)
            == c.(rows := c.rows + 1, discussion := c.discussion + One(r.category == Discussion),
                  abstentions := c.abstentions + One(rules.abstains(r.predictedDeadline)))
  {
    assert (rows + [r])[..|rows|] == rows;
  }

  /**
   A match adds to each count what its own fields and its gold task say: whether an owner was stated, whether there is a
   deadline, which credit the row earned, and whether the prediction left the deadline open.
   */
  lemma MatchAdds(rules: Rules, rows: seq<Row>, r: Row, golds: Golds, gold: seq<Gold>, g: Gold)
    requires MatchedTo(golds, r, g)
    ensures var c, dated, left := CountsIn(rules, rows, golds, gold), !rules.abstains(g.deadline),
                                  rules.abstains(r.predictedDeadline);
            CountsIn(rules, rows + [r], golds, gold)
            == c.(tp := c.tp + 1, rows := c.rows + 1, ownerCorrect := c.ownerCorrect + One(r.ownerCorrect),
                  ownerStated := c.ownerStated + One(g.owner != rules.unstated),
                  ownerStatedCorrect := c.ownerStatedCorrect + One(g.owner != rules.unstated && r.ownerCorrect),
                  ownerUnstated := c.ownerUnstated + One(g.owner == rules.unstated),
                  ownerUnstatedCorrect := c.ownerUnstatedCorrect + One(g.owner == rules.unstated && r.ownerCorrect),
                  deadlineStatedMatched := c.deadlineStatedMatched + One(dated),
                  deadlineCorrect := c.deadlineCorrect + One(dated && r.deadlineCorrect && !left),
                  abstentions := c.abstentions + One(left),
                  abstentionsOnStated := c.abstentionsOnStated + One(dated && left))
  {
    assert (rows + [r])[..|rows|] == rows;
  }

  /** The gold tasks with a deadline are counted one by one too. */
  lemma GoldAdds(rules: Rules, rows: seq<Row>, golds: Golds, gold: seq<Gold>, g: Gold)
    ensures CountsIn(rules, rows, golds, []).deadlineStatedGold == 0
    ensures CountsIn(rules, rows, golds, gold + [g]).deadlineStatedGold
            == CountsIn(rules, rows, golds, gold).deadlineStatedGold + One(!rules.abstains(g.deadline))
  {
    assert (gold + [g])[..|gold|] == gold;
  }

  // ----- Conservation

  ghost predicate DistinctGold(gold: seq<Gold>) {
    forall i, k :: 0 <= i < k < |gold| ==> gold[i].id != gold[k].id
  }

  ghost predicate DistinctPredictions(items: seq<Prediction>) {
    forall i, k :: 0 <= i < k < |items| ==> items[i].id != items[k].id
  }

  function GoldIds(gold: seq<Gold>): set<string> {
    set i | 0 <= i < |gold| :: gold[i].id
  }

  function PredictionIds(items: seq<Prediction>): set<string> {
    set i | 0 <= i < |items| :: items[i].id
  }

  lemma {:induction false} GoldMapKeys(gold: seq<Gold>)
    ensures GoldMap(gold).Keys == GoldIds(gold)
  {
    if gold != [] {
      GoldMapKeys(gold[..|gold| - 1]);
      assert GoldIds(gold) == GoldIds(gold[..|gold| - 1]) + {gold[|gold| - 1].id};
    }
  }

  lemma {:induction false} PredictionMapKeys(items: seq<Prediction>)
    ensures PredictionMap(items).Keys == PredictionIds(items)
  {
    if items != [] {
      PredictionMapKeys(items[..|items| - 1]);
      assert PredictionIds(items) == PredictionIds(items[..|items| - 1]) + {items[|items| - 1].id};
    }
  }

  lemma {:induction false} GoldMapOneMore(front: seq<Gold>, last: Gold)
    ensures |GoldMap(front + [last])| == |GoldMap(front)| + if last.id in GoldMap(front) then 0 else 1
  {
    var all, map0, map1 := front + [last], GoldMap(front), GoldMap(front + [last]);
    assert all[..|all| - 1] == front && map1 == map0[last.id := last];
    assert map1.Keys == map0.Keys + {last.id};
    assert |map1| == |map1.Keys| && |map0| == |map0.Keys|;
  }

  lemma DistinctGoldOneMore(front: seq<Gold>, last: Gold)
    ensures DistinctGold(front + [last]) <==> DistinctGold(front) && last.id !in GoldIds(front)
  {
    var all := front + [last];
    assert all[|front|] == last && forall i :: 0 <= i < |front| ==> all[i] == front[i];
  }

  /** Distinct ids lose no gold task in the map; equal ids do. */
  lemma {:induction false} GoldMapSize(gold: seq<Gold>)
    ensures |GoldMap(gold)| <= |gold| && (|GoldMap(gold)| == |gold| <==> DistinctGold(gold))
  {
    if gold != [] {
      var front, last := gold[..|gold| - 1], gold[|gold| - 1];
      assert gold == front + [last];
      GoldMapSize(front);
      GoldMapKeys(front);
      GoldMapOneMore(front, last);
      DistinctGoldOneMore(front, last);
    }
  }

  lemma {:induction false} PredictionMapSize(items: seq<Prediction>)
    requires DistinctPredictions(items)
    ensures |PredictionMap(items)| == |items|
  {
    if items != [] {
      var front, last := items[..|items| - 1], items[|items| - 1];
      PredictionMapSize(front);
      PredictionMapKeys(front);
      assert PredictionMap(items).Keys == PredictionMap(front).Keys + {last.id};
      assert |PredictionMap(items).Keys| == |PredictionMap(items)|
          && |PredictionMap(front).Keys| == |PredictionMap(front)|;
    }
  }

  /** True and false positives are all predictions; true positives and misses are all gold tasks. */
  lemma {:induction false} CountsConserved(rules: Rules, predictions: seq<Prediction>, gold: seq<Gold>, rows: seq<Row>)
    requires DistinctPredictions(predictions) && Matching(rules, PredictionMap(predictions), GoldMap(gold), rows)
    ensures var c := CountsOf(rules, rows, gold);
            c.Fp() >= 0 && c.Fn() >= 0 && c.tp + c.Fp() == |predictions| && c.tp + c.Fn() == |gold|
  {
    MatchingCounts(rules, PredictionMap(predictions), GoldMap(gold), rows);
    GoldMapSize(gold);
    PredictionMapSize(predictions);
    CountBounded(IsMatch, rows);
  }

  /** Every part counted is at most the whole it is divided by. */
  lemma {:induction false} NumeratorsBounded(rules: Rules, preds: Predictions, gold: seq<Gold>, rows: seq<Row>)
    requires Matching(rules, preds, GoldMap(gold), rows) && DistinctGold(gold)
    ensures var c := CountsOf(rules, rows, gold);
            && c.tp <= c.rows && c.tp <= c.gold && c.discussion <= c.rows && c.abstentions <= c.rows
            && c.ownerCorrect <= c.tp && c.ownerStatedCorrect <= c.ownerStated
            && c.ownerUnstatedCorrect <= c.ownerUnstated
            && c.ownerStated + c.ownerUnstated == c.tp
            && c.ownerStatedCorrect + c.ownerUnstatedCorrect == c.ownerCorrect
            && c.deadlineCorrect + c.abstentionsOnStated <= c.deadlineStatedMatched <= c.deadlineStatedGold
  {
    var golds := GoldMap(gold);
    MatchingCounts(rules, preds, golds, rows);
    GoldMapSize(gold);
    MatchesHaveGold(rules, preds, golds, rows);
    RowCountsBounded(rules, golds, gold, rows);
    StatedMatchesBounded(rules, preds, gold, rows);
  }

  lemma {:induction false} RowCountsBounded(rules: Rules, golds: Golds, gold: seq<Gold>, rows: seq<Row>)
    requires forall i :: 0 <= i < |rows| && IsMatch(rows[i]) ==> rows[i].gold.Some? && rows[i].gold.value in golds
    ensures var c := CountsIn(rules, rows, golds, gold);
            && c.tp <= c.rows && c.discussion <= c.rows && c.abstentions <= c.rows
            && c.ownerCorrect <= c.tp && c.ownerStatedCorrect <= c.ownerStated
            && c.ownerUnstatedCorrect <= c.ownerUnstated
            && c.ownerStated + c.ownerUnstated == c.tp
            && c.ownerStatedCorrect + c.ownerUnstatedCorrect == c.ownerCorrect
            && c.deadlineCorrect + c.abstentionsOnStated <= c.deadlineStatedMatched
  {
    if rows != [] {
      RowCountsBounded(rules, golds, gold, rows[..|rows| - 1]);
    }
  }

  /** The gold tasks of matched rows with a stated deadline are different stated gold tasks. */
  lemma {:induction false} StatedMatchesBounded(rules: Rules, preds: Predictions, gold: seq<Gold>, rows: seq<Row>)
    requires Matching(rules, preds, GoldMap(gold), rows) && DistinctGold(gold)
    ensures Count(MatchedWith(GoldMap(gold), DeadlineStated(rules)), rows) <= Count(DeadlineStated(rules), gold)
  {
    var golds, p := GoldMap(gold), DeadlineStated(rules);
    var q := MatchedWith(golds, p);
    assert forall r :: q(r) ==> IsMatch(r) && r.gold.Some? && r.gold.value in golds && p(golds[r.gold.value]);
    IdsCount(q, rows);
    StatedIdsCount(p, gold);
    forall id | id in IdsOf(q, rows) ensures id in StatedIds(p, gold) {
      GoldMapFinds(gold, id);
    }
    SubsetSize(IdsOf(q, rows), StatedIds(p, gold));
  }

  function StatedIds(p: Gold -> bool, gold: seq<Gold>): set<string> {
    set i | 0 <= i < |gold| && p(gold[i]) :: gold[i].id
  }

  lemma StatedIdsOneMore(p: Gold -> bool, gold: seq<Gold>, last: Gold)
    requires DistinctGold(gold + [last])
    ensures StatedIds(p, gold + [last]) == if p(last) then StatedIds(p, gold) + {last.id} else StatedIds(p, gold)
    ensures last.id !in StatedIds(p, gold)
  {
    var all := gold + [last];
    assert all[|gold|] == last && forall i :: 0 <= i < |gold| ==> all[i] == gold[i];
    forall id | id in StatedIds(p, gold) ensures id in StatedIds(p, all) && id != last.id {
      var i :| 0 <= i < |gold| && p(gold[i]) && gold[i].id == id;
      assert p(all[i]) && all[i].id != all[|gold|].id;
    }
  }

  lemma {:induction false} StatedIdsCount(p: Gold -> bool, gold: seq<Gold>)
    requires DistinctGold(gold)
    ensures |StatedIds(p, gold)| == Count(p, gold)
  {
    if gold != [] {
      var front, last := gold[..|gold| - 1], gold[|gold| - 1];
      assert gold == front + [last];
      StatedIdsCount(p, front);
      StatedIdsOneMore(p, front, last);
    }
  }

  lemma {:induction false} GoldMapFinds(gold: seq<Gold>, id: string)
    requires id in GoldMap(gold)
    ensures exists i :: 0 <= i < |gold| && gold[i].id == id && gold[i] == GoldMap(gold)[id]
  {
    var front, last := gold[..|gold| - 1], gold[|gold| - 1];
    if last.id != id {
      GoldMapFinds(front, id);
      var i :| 0 <= i < |front| && front[i].id == id && front[i] == GoldMap(front)[id];
      assert gold[i] == GoldMap(gold)[id];
    }
  }

  // ----- Ratios

  /** Precision is the part of the rows that match, recall the part of the gold tasks; each is there unless none are. */
  lemma RatiosAre(c: Counts)
    ensures (c.Precision().Some? <==> c.rows > 0) && (c.Recall().Some? <==> c.gold > 0)
    ensures c.Precision().Some? ==> c.Precision().value * c.rows as real == c.tp as real
    ensures c.Recall().Some? ==> c.Recall().value * c.gold as real == c.tp as real
    ensures c.F1().None? <==> c.rows + c.gold == 0
  {
  }


  /** Whenever precision and recall are there and not both zero, F1 is their harmonic mean. */
  lemma F1IsHarmonicMean(c: Counts)
    requires c.tp <= c.rows && c.tp <= c.gold
    ensures c.Precision().Some? && c.Recall().Some? ==> c.F1().Some?
    ensures c.Precision().Some? && c.Recall().Some? ==>
              var p, r, f := c.Precision().value, c.Recall().value, c.F1().value;
              && 0.0 <= p <= 1.0 && 0.0 <= r <= 1.0 && 0.0 <= f <= 1.0
              && f * (p + r) == 2.0 * p * r
              && (p + r == 0.0 <==> c.tp == 0) && (c.tp == 0 ==> f == 0.0)
  {
    if c.rows > 0 && c.gold > 0 {
      HarmonicMean(c.tp as real, c.rows as real, c.gold as real);
    }
  }

  lemma HarmonicMean(t: real, n: real, g: real)
    requires 0.0 <= t <= n && t <= g && n > 0.0 && g > 0.0
    ensures var p, r, f := t / n, t / g, (2.0 * t) / (n + g);
            && 0.0 <= p <= 1.0 && 0.0 <= r <= 1.0 && 0.0 <= f <= 1.0
            && f * (p + r) == 2.0 * p * r
            && (p + r == 0.0 <==> t == 0.0)
  {
    var p, r, f := t / n, t / g, (2.0 * t) / (n + g);
    assert p * n == t && r * g == t && f * (n + g) == 2.0 * t;
    assert f * (p + r) * (n * g) == f * (t * (n + g)) by {
      assert (p + r) * (n * g) == (p * n) * g + (r * g) * n;
    }
    assert f * (t * (n + g)) == 2.0 * t * t;
    assert 2.0 * p * r * (n * g) == 2.0 * (p * n) * (r * g);
  }
}
