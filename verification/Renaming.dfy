/** Reusing a judge's answer for the same predictions under other ids. */
module Renaming {
  import opened Basics
  import opened Judging
  import opened FieldReview
  import opened Scoring

  type Ids = map<string, string>

  /** The two populations are the same predictions, apart from their ids, and the ids correspond one to one. */
  ghost predicate Renames(ids: Ids, preds: Predictions, preds': Predictions) {
    && ids.Keys == preds.Keys && ids.Values == preds'.Keys
    && (forall a, b :: a in ids && b in ids && ids[a] == ids[b] ==> a == b)
    && (forall a :: a in ids ==> preds'[ids[a]] == preds[a].(id := ids[a]))
  }

  function Renamed(ids: Ids, j: Judgment): Judgment {
    if j.prediction in ids then j.(prediction := ids[j.prediction]) else j
  }

  function RenamedAll(ids: Ids, js: seq<Judgment>): (r: seq<Judgment>)
    ensures |r| == |js| && forall i :: 0 <= i < |js| ==> r[i] == Renamed(ids, js[i])
  {
    seq(|js|, i requires 0 <= i < |js| => Renamed(ids, js[i]))
  }

  ghost predicate AllNamed(ids: Ids, js: seq<Judgment>) {
    forall i :: 0 <= i < |js| ==> js[i].prediction in ids
  }

  // ----- The correspondence by position

  function IdMap(olds: seq<Prediction>, news: seq<Prediction>): Ids
    requires |olds| == |news|
  {
    if olds == [] then map[]
    else IdMap(olds[..|olds| - 1], news[..|news| - 1])[olds[|olds| - 1].id := news[|news| - 1].id]
  }

  /** Every prediction under its new id, at the same position. */
  ghost predicate SamePopulation(olds: seq<Prediction>, news: seq<Prediction>) {
    && |olds| == |news| && DistinctPredictions(olds) && DistinctPredictions(news)
    && forall i :: 0 <= i < |olds| ==> news[i] == olds[i].(id := news[i].id)
  }

  lemma {:induction false} IdMapAt(olds: seq<Prediction>, news: seq<Prediction>, i: nat)
    requires |olds| == |news| && DistinctPredictions(olds) && i < |olds|
    ensures olds[i].id in IdMap(olds, news) && IdMap(olds, news)[olds[i].id] == news[i].id
  {
    if i < |olds| - 1 {
      IdMapAt(olds[..|olds| - 1], news[..|news| - 1], i);
    }
  }

  lemma {:induction false} IdMapKeys(olds: seq<Prediction>, news: seq<Prediction>)
    requires |olds| == |news|
    ensures IdMap(olds, news).Keys == PredictionIds(olds)
  {
    if olds != [] {
      IdMapKeys(olds[..|olds| - 1], news[..|news| - 1]);
      assert PredictionIds(olds) == PredictionIds(olds[..|olds| - 1]) + {olds[|olds| - 1].id};
    }
  }

  lemma {:induction false} PredictionMapAt(items: seq<Prediction>, i: nat)
    requires DistinctPredictions(items) && i < |items|
    ensures items[i].id in PredictionMap(items) && PredictionMap(items)[items[i].id] == items[i]
  {
    if i < |items| - 1 {
      PredictionMapAt(items[..|items| - 1], i);
    }
  }

  /** However each list of items is shuffled, its map is the same. */
  lemma {:induction false} ShuffledSameMap(items: seq<Prediction>, shuffled: seq<Prediction>)
    requires DistinctPredictions(items) && DistinctPredictions(shuffled)
    requires forall p :: p in items <==> p in shuffled
    ensures PredictionMap(items) == PredictionMap(shuffled)
  {
    PredictionMapKeys(items);
    PredictionMapKeys(shuffled);
    forall id ensures id in PredictionIds(items) <==> id in PredictionIds(shuffled) {
      if id in PredictionIds(items) {
        var i :| 0 <= i < |items| && items[i].id == id;
        assert items[i] in shuffled;
      }
      if id in PredictionIds(shuffled) {
        var i :| 0 <= i < |shuffled| && shuffled[i].id == id;
        assert shuffled[i] in items;
      }
    }
    forall id | id in PredictionIds(items) ensures PredictionMap(items)[id] == PredictionMap(shuffled)[id] {
      var i :| 0 <= i < |items| && items[i].id == id;
      PredictionMapAt(items, i);
      assert items[i] in shuffled;
      var k :| 0 <= k < |shuffled| && shuffled[k] == items[i];
      PredictionMapAt(shuffled, k);
    }
  }

  lemma PositionOf(olds: seq<Prediction>, news: seq<Prediction>, a: string) returns (i: nat)
    requires SamePopulation(olds, news) && a in IdMap(olds, news)
    ensures i < |olds| && olds[i].id == a && IdMap(olds, news)[a] == news[i].id
  {
    IdMapKeys(olds, news);
    i :| 0 <= i < |olds| && olds[i].id == a;
    IdMapAt(olds, news, i);
  }

  lemma {:induction false} IdMapValues(olds: seq<Prediction>, news: seq<Prediction>)
    requires SamePopulation(olds, news)
    ensures IdMap(olds, news).Values == PredictionIds(news)
  {
    var ids := IdMap(olds, news);
    forall b ensures b in ids.Values <==> b in PredictionIds(news) {
      if b in ids.Values {
        var a :| a in ids && ids[a] == b;
        var i := PositionOf(olds, news, a);
      }
      if b in PredictionIds(news) {
        var i :| 0 <= i < |news| && news[i].id == b;
        IdMapAt(olds, news, i);
      }
    }
  }

  lemma {:induction false} RenamedAt(olds: seq<Prediction>, news: seq<Prediction>, a: string)
    requires SamePopulation(olds, news) && a in IdMap(olds, news)
    ensures a in PredictionMap(olds) && IdMap(olds, news)[a] in PredictionMap(news)
    ensures PredictionMap(news)[IdMap(olds, news)[a]] == PredictionMap(olds)[a].(id := IdMap(olds, news)[a])
  {
    var i := PositionOf(olds, news, a);
    PredictionMapAt(olds, i);
    PredictionMapAt(news, i);
  }

  lemma {:induction false} OneToOne(olds: seq<Prediction>, news: seq<Prediction>, a: string, b: string)
    requires SamePopulation(olds, news) && a in IdMap(olds, news) && b in IdMap(olds, news)
    requires IdMap(olds, news)[a] == IdMap(olds, news)[b]
    ensures a == b
  {
    var i := PositionOf(olds, news, a);
    var k := PositionOf(olds, news, b);
    assert i == k;
  }

  /** Matching the ids by position renames the whole population. */
  lemma {:induction false} PositionsRename(olds: seq<Prediction>, news: seq<Prediction>)
    requires SamePopulation(olds, news)
    ensures Renames(IdMap(olds, news), PredictionMap(olds), PredictionMap(news))
  {
    var ids := IdMap(olds, news);
    IdMapKeys(olds, news);
    IdMapValues(olds, news);
    PredictionMapKeys(olds);
    PredictionMapKeys(news);
    forall a, b | a in ids && b in ids && ids[a] == ids[b] ensures a == b {
      OneToOne(olds, news, a, b);
    }
    forall a | a in ids ensures PredictionMap(news)[ids[a]] == PredictionMap(olds)[a].(id := ids[a]) {
      RenamedAt(olds, news, a);
    }
  }

  // ----- Rewriting the answer

  /** Every row's id is replaced; an id that is not one of the population's stops the reuse. */
  method Reuse(ids: Ids, js: seq<Judgment>) returns (r: Result<seq<Judgment>, string>)
    ensures r.Ok? <==> AllNamed(ids, js)
    ensures r.Ok? ==> r.value == RenamedAll(ids, js)
  {
    var renamed: seq<Judgment> := [];
    for i := 0 to |js|
      invariant |renamed| == i && forall k :: 0 <= k < i ==>
                js[k].prediction in ids && renamed[k] == Renamed(ids, js[k])
    {
      if js[i].prediction !in ids {
        return Err("Unknown prediction id");
      }
      renamed := renamed + [js[i].(prediction := ids[js[i].prediction])];
    }
    return Ok(renamed);
  }

  // ----- Acceptance

  lemma RowOkRenamed(rules: Rules, ids: Ids, preds: Predictions, preds': Predictions, golds: Golds, j: Judgment)
    requires Renames(ids, preds, preds') && j.prediction in ids
    ensures RowOk(rules, preds, golds, j) <==> RowOk(rules, preds', golds, Renamed(ids, j))
  {
    assert preds'[ids[j.prediction]] == preds[j.prediction].(id := ids[j.prediction]);
    assert ids[j.prediction] in ids.Values;
  }

  lemma ConsistentRenamed(rules: Rules, ids: Ids, preds: Predictions, preds': Predictions, golds: Golds,
                          js: seq<Judgment>)
    requires Renames(ids, preds, preds') && AllNamed(ids, js)
    ensures Consistent(rules, preds, golds, js) <==> Consistent(rules, preds', golds, RenamedAll(ids, js))
  {
    var js' := RenamedAll(ids, js);
    forall i | 0 <= i < |js|
      ensures RowOk(rules, preds, golds, js[i]) <==> RowOk(rules, preds', golds, js'[i])
      ensures js'[i].category == js[i].category && js'[i].gold == js[i].gold
    {
      RowOkRenamed(rules, ids, preds, preds', golds, js[i]);
    }
    forall i, k | 0 <= i < k < |js|
      ensures js[i].prediction != js[k].prediction <==> js'[i].prediction != js'[k].prediction
    {
      assert js[i].prediction in ids && js[k].prediction in ids;
    }
  }

  lemma CoversRenamed(ids: Ids, preds: Predictions, preds': Predictions, js: seq<Judgment>)
    requires Renames(ids, preds, preds') && AllNamed(ids, js)
    ensures Covers(preds, js) <==> Covers(preds', RenamedAll(ids, js))
  {
    var js' := RenamedAll(ids, js);
    if Covers(preds, js) {
      forall b | b in preds' ensures exists i :: 0 <= i < |js'| && js'[i].prediction == b {
        assert b in ids.Values;
        var a :| a in ids && ids[a] == b;
        var i :| 0 <= i < |js| && js[i].prediction == a;
        assert js'[i].prediction == b;
      }
    }
    if Covers(preds', js') {
      forall a | a in preds ensures exists i :: 0 <= i < |js| && js[i].prediction == a {
        assert ids[a] in ids.Values;
        var i :| 0 <= i < |js'| && js'[i].prediction == ids[a];
        assert js[i].prediction in ids && js[i].prediction == a;
      }
    }
  }

  /** An answer is accepted for the old ids exactly when it can be reused and is accepted for the new ones. */
  lemma AcceptedRenamed(rules: Rules, ids: Ids, preds: Predictions, preds': Predictions, golds: Golds,
                        js: seq<Judgment>)
    requires Renames(ids, preds, preds')
    ensures Accepted(rules, preds, golds, js) <==>
            AllNamed(ids, js) && Accepted(rules, preds', golds, RenamedAll(ids, js))
  {
    if AllNamed(ids, js) {
      ConsistentRenamed(rules, ids, preds, preds', golds, js);
      CoversRenamed(ids, preds, preds', js);
    }
  }

  // ----- Acceptance with the review fields

  function RenamedReview(ids: Ids, r: ReviewedRow): ReviewedRow {
    if r.Reviewable? then r.(row := Renamed(ids, r.row)) else r
  }

  function RenamedReviews(ids: Ids, rs: seq<ReviewedRow>): (r: seq<ReviewedRow>)
    ensures |r| == |rs| && forall i :: 0 <= i < |rs| ==> r[i] == RenamedReview(ids, rs[i])
  {
    seq(|rs|, i requires 0 <= i < |rs| => RenamedReview(ids, rs[i]))
  }

  ghost predicate AllReviewsNamed(ids: Ids, rs: seq<ReviewedRow>) {
    forall i :: 0 <= i < |rs| && rs[i].Reviewable? ==> rs[i].row.prediction in ids
  }

  lemma BasesRenamed(ids: Ids, rs: seq<ReviewedRow>)
    requires AllReviewable(rs)
    ensures AllReviewable(RenamedReviews(ids, rs))
    ensures Bases(RenamedReviews(ids, rs)) == RenamedAll(ids, Bases(rs))
  {
    var rs' := RenamedReviews(ids, rs);
    forall i | 0 <= i < |rs| ensures rs'[i].Reviewable? && Bared(rs'[i].row) == Renamed(ids, Bared(rs[i].row)) {
    }
    assert AllReviewable(rs');
  }

  lemma ClaimedRenamed(ids: Ids, rs: seq<ReviewedRow>)
    ensures ClaimedIds(RenamedReviews(ids, rs)) == ClaimedIds(rs)
  {
    var rs' := RenamedReviews(ids, rs);
    forall i | 0 <= i < |rs|
      ensures rs'[i].Reviewable? == rs[i].Reviewable?
      ensures rs[i].Reviewable? ==> rs'[i].row.category == rs[i].row.category && rs'[i].row.gold == rs[i].row.gold
    {
    }
  }

  lemma ReviewableRenamed(ids: Ids, golds: Golds, rs: seq<ReviewedRow>, i: nat)
    requires i < |rs|
    ensures RowReviewable(golds, ClaimedIds(rs), rs[i])
            <==> RowReviewable(golds, ClaimedIds(RenamedReviews(ids, rs)), RenamedReviews(ids, rs)[i])
  {
    ClaimedRenamed(ids, rs);
  }

  /** What the judge translated, and what its duplicates refer to, has nothing to do with prediction ids. */
  lemma AllReviewableRenamed(ids: Ids, golds: Golds, rs: seq<ReviewedRow>)
    ensures AllRowsReviewable(golds, rs) <==> AllRowsReviewable(golds, RenamedReviews(ids, rs))
  {
    forall i: nat | i < |rs|
      ensures RowReviewable(golds, ClaimedIds(rs), rs[i])
              <==> RowReviewable(golds, ClaimedIds(RenamedReviews(ids, rs)), RenamedReviews(ids, rs)[i])
    {
      ReviewableRenamed(ids, golds, rs, i);
    }
  }

  /** With its translations and duplicate references, too, the answer is accepted for the old ids or for neither. */
  lemma ReviewAcceptedRenamed(
      rules: Rules, ids: Ids, preds: Predictions, preds': Predictions, gold: seq<Gold>,
      translations: seq<Option<string>>,
      rs: seq<ReviewedRow>)
    requires Renames(ids, preds, preds')
    ensures ReviewAccepted(rules, preds, gold, translations, rs)
            <==> AllReviewsNamed(ids, rs) && ReviewAccepted(rules, preds', gold, translations, RenamedReviews(ids, rs))
  {
    AllReviewableRenamed(ids, GoldMap(gold), rs);
    if AllRowsReviewable(GoldMap(gold), rs) {
      BasesRenamed(ids, rs);
      AcceptedRenamed(rules, ids, preds, preds', GoldMap(gold), Bases(rs));
      assert forall i :: 0 <= i < |rs| ==> Bases(rs)[i].prediction == rs[i].row.prediction;
      assert AllReviewsNamed(ids, rs) <==> AllNamed(ids, Bases(rs));
    }
  }

  // ----- Scores

  function SameBut(ids: Ids, r: Row): Row {
    if r.prediction in ids then r.(prediction := ids[r.prediction]) else r
  }

  ghost predicate RenamedRows(ids: Ids, rows: seq<Row>, rows': seq<Row>) {
    |rows'| == |rows| && forall i :: 0 <= i < |rows| ==> rows[i].prediction in ids && rows'[i] == SameBut(ids, rows[i])
  }

  lemma RowsRenamed(ids: Ids, preds: Predictions, preds': Predictions, js: seq<Judgment>, rows: seq<Row>,
                    rows': seq<Row>)
    requires Renames(ids, preds, preds') && AllNamed(ids, js)
    requires RowsOf(preds, js, rows) && RowsOf(preds', RenamedAll(ids, js), rows')
    ensures RenamedRows(ids, rows, rows')
  {
    forall i | 0 <= i < |rows| ensures rows[i].prediction in ids && rows'[i] == SameBut(ids, rows[i]) {
      assert js[i].prediction in ids && RenamedAll(ids, js)[i] == Renamed(ids, js[i]);
      assert preds'[ids[js[i].prediction]] == preds[js[i].prediction].(id := ids[js[i].prediction]);
    }
  }

  /** The field review sees the same predictions, so it does the same to both. */
  lemma ReviewRenamed(rules: Rules, fields: FieldRules, ids: Ids, preds: Predictions, preds': Predictions, golds: Golds,
                      rows: seq<Row>, rows': seq<Row>)
    requires Renames(ids, preds, preds') && RenamedRows(ids, rows, rows')
    ensures RenamedRows(ids, ReviewedAll(rules, fields, preds, golds, rows),
            ReviewedAll(rules, fields, preds', golds, rows'))
  {
    forall i | 0 <= i < |rows|
      ensures Reviewed(rules, fields, preds', golds, rows'[i])
              == SameBut(ids, Reviewed(rules, fields, preds, golds, rows[i]))
    {
      var r := rows[i];
      assert r.prediction in ids && ids[r.prediction] in ids.Values;
      assert preds'[ids[r.prediction]] == preds[r.prediction].(id := ids[r.prediction]);
    }
  }

  lemma {:induction false} SameCount(p: Row -> bool, ids: Ids, rows: seq<Row>, rows': seq<Row>)
    requires RenamedRows(ids, rows, rows') && forall r: Row, id :: p(r.(prediction := id)) == p(r)
    ensures Count(p, rows') == Count(p, rows)
  {
    forall i | 0 <= i < |rows| ensures p(rows[i]) == p(rows'[i]) {
      assert p(rows[i].(prediction := ids[rows[i].prediction])) == p(rows[i]);
    }
    CountSame(p, rows, p, rows');
  }

  /** No count looks at the ids, so every metric of the reused answer is that of the original. */
  lemma ScoresRenamed(rules: Rules, ids: Ids, rows: seq<Row>, rows': seq<Row>, gold: seq<Gold>)
    requires RenamedRows(ids, rows, rows')
    ensures CountsOf(rules, rows', gold) == CountsOf(rules, rows, gold)
  {
    var golds := GoldMap(gold);
    var stated, unstated, dated :=
      MatchedWith(golds, OwnerStated(rules)), MatchedWith(golds, OwnerUnstated(rules)),
          MatchedWith(golds, DeadlineStated(rules));
    SameCount(IsMatch, ids, rows, rows');
    SameCount((r: Row) => r.category == Discussion, ids, rows, rows');
    SameCount(Both(IsMatch, OwnerRight), ids, rows, rows');
    SameCount(stated, ids, rows, rows');
    SameCount(Both(stated, OwnerRight), ids, rows, rows');
    SameCount(unstated, ids, rows, rows');
    SameCount(Both(unstated, OwnerRight), ids, rows, rows');
    SameCount(dated, ids, rows, rows');
    SameCount(Both(dated, DeadlineRight(rules)), ids, rows, rows');
    SameCount(Abstained(rules), ids, rows, rows');
    SameCount(Both(dated, Abstained(rules)), ids, rows, rows');
  }

  /** From the positional correspondence and any two shuffles to the scores. */
  lemma {:induction false} ReusedAnswerScoresTheSame(
      rules: Rules, fields: FieldRules, olds: seq<Prediction>, news: seq<Prediction>, items: seq<Prediction>,
      items': seq<Prediction>, gold: seq<Gold>, translations: seq<Option<string>>, rs: seq<ReviewedRow>, rows: seq<Row>,
      rows': seq<Row>)
    requires SamePopulation(olds, news) && DistinctPredictions(items) && DistinctPredictions(items')
    requires (forall p :: p in olds <==> p in items) && (forall p :: p in news <==> p in items')
    requires ReviewAccepted(rules, PredictionMap(items), gold, translations, rs)
    requires RowsOf(PredictionMap(items), Bases(rs), rows)
    ensures ReviewAccepted(rules, PredictionMap(items'), gold, translations, RenamedReviews(IdMap(olds, news), rs))
    ensures RowsOf(PredictionMap(items'), Bases(RenamedReviews(IdMap(olds, news), rs)), rows') ==>
              CountsOf(rules, ReviewedAll(rules, fields, PredictionMap(items'), GoldMap(gold), rows'), gold)
              == CountsOf(rules, ReviewedAll(rules, fields, PredictionMap(items), GoldMap(gold), rows), gold)
  {
    var ids, preds, preds', golds := IdMap(olds, news), PredictionMap(items), PredictionMap(items'), GoldMap(gold);
    ShuffledSameMap(olds, items);
    ShuffledSameMap(news, items');
    PositionsRename(olds, news);
    ReviewAcceptedRenamed(rules, ids, preds, preds', gold, translations, rs);
    BasesRenamed(ids, rs);
    if RowsOf(preds', Bases(RenamedReviews(ids, rs)), rows') {
      ReusedRowsScoreTheSame(rules, fields, ids, preds, preds', gold, Bases(rs), rows, rows');
    }
  }

  lemma {:induction false} ReusedRowsScoreTheSame(
      rules: Rules, fields: FieldRules, ids: Ids, preds: Predictions, preds': Predictions, gold: seq<Gold>,
      js: seq<Judgment>, rows: seq<Row>, rows': seq<Row>)
    requires Renames(ids, preds, preds') && Accepted(rules, preds, GoldMap(gold), js)
    requires RowsOf(preds, js, rows) && RowsOf(preds', RenamedAll(ids, js), rows')
    ensures CountsOf(rules, ReviewedAll(rules, fields, preds', GoldMap(gold), rows'), gold)
            == CountsOf(rules, ReviewedAll(rules, fields, preds, GoldMap(gold), rows), gold)
  {
    AcceptedRenamed(rules, ids, preds, preds', GoldMap(gold), js);
    RowsRenamed(ids, preds, preds', js, rows, rows');
    ReviewRenamed(rules, fields, ids, preds, preds', GoldMap(gold), rows, rows');
    ScoresRenamed(rules, ids, ReviewedAll(rules, fields, preds, GoldMap(gold), rows),
                  ReviewedAll(rules, fields, preds', GoldMap(gold), rows'), gold);
  }
}
