/** The judge's answer, validated into a one-to-one matching of predictions with gold tasks. */
module Judging {
  import opened Basics

  datatype Prediction = Prediction(id: string, owner: string, deadline: string)

  datatype Gold = Gold(id: string, quote: string, owner: string, deadline: string)

  /** `Unlisted` stands for any category outside the schema. */
  datatype Category = Match | Discussion | Duplicate | Unsupported | WrongTask | Unlisted

  /** A row as the judge wrote it; a field of the wrong type is absent. */
  datatype Judgment = Judgment(
    prediction: string, gold: Option<string>, category: Category, owner: Option<bool>, deadline: Option<bool>,
    reason: Option<string>, quote: Option<string>)

  datatype RawRow = Malformed | Proper(row: Judgment)

  /** A row that was accepted. */
  datatype Row = Row(
    prediction: string, gold: Option<string>, category: Category, ownerCorrect: bool, deadlineCorrect: bool,
    quote: string,
    predictedDeadline: string)

  /** Language rules and the transcript, as far as judging uses them; `unstated` is the word for an owner not given. */
  datatype Rules = Rules(blank: string -> bool, inText: string -> bool, abstains: string -> bool, unstated: string)

  type Predictions = map<string, Prediction>

  type Golds = map<string, Gold>

  /** Items by id; a later item replaces an earlier one with the same id. */
  function PredictionMap(items: seq<Prediction>): Predictions {
    if items == [] then map[] else PredictionMap(items[..|items| - 1])[items[|items| - 1].id := items[|items| - 1]]
  }

  function GoldMap(items: seq<Gold>): Golds {
    if items == [] then map[] else GoldMap(items[..|items| - 1])[items[|items| - 1].id := items[|items| - 1]]
  }

  predicate IsMatch(r: Row) {
    r.category == Match
  }

  // ----- What must hold of an answer

  /** The fields a row must have, whatever its category. */
  predicate Explained(rules: Rules, j: Judgment) {
    && j.owner.Some? && j.deadline.Some?
    && j.reason.Some? && !rules.blank(j.reason.value) && j.quote.Some?
    && (j.quote.value != "" ==> rules.inText(j.quote.value))
  }

  /** A match names a gold task and quotes; without one there is no credit, and none for a deadline left open. */
  predicate Credited(rules: Rules, preds: Predictions, golds: Golds, j: Judgment)
    requires j.prediction in preds && Explained(rules, j)
  {
    if j.category == Match then
      && j.gold.Some? && j.gold.value in golds && j.quote.value != ""
      && (j.deadline.value ==>
            !rules.abstains(golds[j.gold.value].deadline) && !rules.abstains(preds[j.prediction].deadline))
    else j.gold.None? && !j.owner.value && !j.deadline.value
  }

  /** The checks on one row alone. */
  predicate RowOk(rules: Rules, preds: Predictions, golds: Golds, j: Judgment) {
    j.prediction in preds && j.category != Unlisted && Explained(rules, j) && Credited(rules, preds, golds, j)
  }

  function RowOf(preds: Predictions, j: Judgment): Row
    requires j.prediction in preds && j.owner.Some? && j.deadline.Some? && j.quote.Some?
  {
    Row(j.prediction, j.gold, j.category, j.owner.value, j.deadline.value, j.quote.value, preds[j.prediction].deadline)
  }

  /** Each row is right by itself, no prediction is judged twice and no gold task matched twice. */
  ghost predicate Consistent(rules: Rules, preds: Predictions, golds: Golds, js: seq<Judgment>) {
    && (forall i :: 0 <= i < |js| ==> RowOk(rules, preds, golds, js[i]))
    && (forall i, k :: 0 <= i < k < |js| ==> js[i].prediction != js[k].prediction)
    && (forall i, k :: 0 <= i < k < |js| && js[i].category == Match && js[k].category == Match ==>
         js[i].gold != js[k].gold)
  }

  ghost predicate Covers(preds: Predictions, js: seq<Judgment>) {
    forall p :: p in preds ==> exists i :: 0 <= i < |js| && js[i].prediction == p
  }

  ghost predicate Accepted(rules: Rules, preds: Predictions, golds: Golds, js: seq<Judgment>) {
    Consistent(rules, preds, golds, js) && Covers(preds, js)
  }

  ghost predicate RowsOf(preds: Predictions, js: seq<Judgment>, rows: seq<Row>) {
    && |rows| == |js|
    && forall i :: 0 <= i < |js| ==>
         && js[i].prediction in preds && js[i].owner.Some? && js[i].deadline.Some? && js[i].quote.Some?
         && rows[i] == RowOf(preds, js[i])
  }

  // ----- Validation

  ghost predicate JudgedIn(js: seq<Judgment>, p: string) {
    exists i :: 0 <= i < |js| && js[i].prediction == p
  }

  ghost predicate MatchedIn(js: seq<Judgment>, g: string) {
    exists i :: 0 <= i < |js| && js[i].category == Match && js[i].gold == Some(g)
  }

  /** The ids judged and matched so far. */
  ghost predicate Tallied(js: seq<Judgment>, seen: set<string>, matched: set<string>) {
    (forall p :: p in seen <==> JudgedIn(js, p)) && (forall g :: g in matched <==> MatchedIn(js, g))
  }

  lemma TalliedIds(js: seq<Judgment>, j: Judgment, id: string)
    ensures JudgedIn(js + [j], id) <==> JudgedIn(js, id) || j.prediction == id
    ensures MatchedIn(js + [j], id) <==> MatchedIn(js, id) || (j.category == Match && j.gold == Some(id))
  {
    var all := js + [j];
    assert all[|js|] == j && forall i :: 0 <= i < |js| ==> all[i] == js[i];
    if JudgedIn(js, id) {
      var i :| 0 <= i < |js| && js[i].prediction == id;
      assert all[i].prediction == id;
    }
    if MatchedIn(js, id) {
      var i :| 0 <= i < |js| && js[i].category == Match && js[i].gold == Some(id);
      assert all[i].category == Match && all[i].gold == Some(id);
    }
  }

  lemma TallyOneMore(js: seq<Judgment>, j: Judgment, seen: set<string>, matched: set<string>)
    requires Tallied(js, seen, matched) && (j.category == Match ==> j.gold.Some?)
    ensures Tallied(js + [j], seen + {j.prediction}, if j.category == Match then matched + {j.gold.value} else matched)
  {
    forall id
      ensures JudgedIn(js + [j], id) <==> JudgedIn(js, id) || j.prediction == id
      ensures MatchedIn(js + [j], id) <==> MatchedIn(js, id) || (j.category == Match && j.gold == Some(id))
    {
      TalliedIds(js, j, id);
    }
  }

  /** One more row is consistent with those before exactly when it passes the checks of the loop. */
  predicate Passes(rules: Rules, preds: Predictions, golds: Golds, seen: set<string>, matched: set<string>, j: Judgment)
  {
    && RowOk(rules, preds, golds, j) && j.prediction !in seen
    && (j.category == Match ==> j.gold.value !in matched)
  }

  lemma ConsistentOneMore(
      rules: Rules, preds: Predictions, golds: Golds, js: seq<Judgment>, j: Judgment, seen: set<string>,
      matched: set<string>)
    requires Consistent(rules, preds, golds, js) && Tallied(js, seen, matched)
    ensures Consistent(rules, preds, golds, js + [j]) <==> Passes(rules, preds, golds, seen, matched, j)
  {
    var all := js + [j];
    assert all[|js|] == j && forall i :: 0 <= i < |js| ==> all[i] == js[i];
    if Consistent(rules, preds, golds, all) {
      assert RowOk(rules, preds, golds, all[|js|]);
      assert !JudgedIn(js, j.prediction);
      assert j.category == Match ==> !MatchedIn(js, j.gold.value);
    }
  }

  lemma ConsistentPrefix(rules: Rules, preds: Predictions, golds: Golds, js: seq<Judgment>, n: nat)
    requires Consistent(rules, preds, golds, js) && n <= |js|
    ensures Consistent(rules, preds, golds, js[..n])
  {
    assert forall i :: 0 <= i < n ==> js[..n][i] == js[i];
  }

  lemma CoversIffAllSeen(preds: Predictions, js: seq<Judgment>, seen: set<string>, matched: set<string>)
    requires Tallied(js, seen, matched) && forall i :: 0 <= i < |js| ==> js[i].prediction in preds
    ensures Covers(preds, js) <==> seen == preds.Keys
  {
    if Covers(preds, js) {
      forall p ensures p in seen <==> p in preds.Keys {
      }
    }
  }

  method CheckFields(rules: Rules, j: Judgment) returns (error: Option<string>)
    ensures error.None? <==> Explained(rules, j)
  {
    if j.owner.None? || j.deadline.None? {
      return Some("Field correctness must be boolean");
    }
    if j.reason.None? || rules.blank(j.reason.value) || j.quote.None? {
      return Some("Missing judge explanation");
    }
    if j.quote.value != "" && !rules.inText(j.quote.value) {
      return Some("Judge evidence not in transcript");
    }
    return None;
  }

  method CheckCredit(rules: Rules, preds: Predictions, golds: Golds, matched: set<string>, j: Judgment)
      returns (error: Option<string>)
    requires j.prediction in preds && Explained(rules, j)
    ensures error.None? <==> Credited(rules, preds, golds, j) && (j.category == Match ==> j.gold.value !in matched)
  {
    if j.category == Match {
      if j.gold.None? || j.gold.value !in golds || j.gold.value in matched || j.quote.value == "" {
        return Some("Invalid or many-to-one match");
      }
      if j.deadline.value && (rules.abstains(golds[j.gold.value].deadline)
          || rules.abstains(preds[j.prediction].deadline)) {
        return Some("Unstated gold/abstained deadline cannot receive correctness credit");
      }
    } else if j.gold.Some? || j.owner.value || j.deadline.value {
      return Some("Unmatched prediction cannot receive field credit");
    }
    return None;
  }

  /** The checks of one row, in the order of the source. */
  method CheckRow(rules: Rules, preds: Predictions, golds: Golds, seen: set<string>, matched: set<string>, j: Judgment)
      returns (error: Option<string>)
    ensures error.None? <==> Passes(rules, preds, golds, seen, matched, j)
  {
    if j.prediction !in preds || j.prediction in seen || j.category == Unlisted {
      return Some("Unknown/duplicate prediction or category");
    }
    error := CheckFields(rules, j);
    if error.None? {
      error := CheckCredit(rules, preds, golds, matched, j);
    }
  }

  ghost predicate AllProper(raws: seq<RawRow>) {
    forall i :: 0 <= i < |raws| ==> raws[i].Proper?
  }

  function Properly(raws: seq<RawRow>): (r: seq<Judgment>)
    requires forall i :: 0 <= i < |raws| ==> raws[i].Proper?
    ensures |r| == |raws| && forall i :: 0 <= i < |r| ==> r[i] == raws[i].row
  {
    seq(|raws|, i requires 0 <= i < |raws| => raws[i].row)
  }

  ghost predicate AnswerAccepted(rules: Rules, preds: Predictions, golds: Golds, payload: Option<seq<RawRow>>) {
    payload.Some? && AllProper(payload.value) && Accepted(rules, preds, golds, Properly(payload.value))
  }

  ghost predicate Begun(raws: seq<RawRow>, js: seq<Judgment>) {
    |js| <= |raws| && forall k :: 0 <= k < |js| ==> raws[k].Proper? && js[k] == raws[k].row
  }

  lemma BegunConsistent(rules: Rules, preds: Predictions, golds: Golds, raws: seq<RawRow>, js: seq<Judgment>)
    requires Begun(raws, js) && AnswerAccepted(rules, preds, golds, Some(raws))
    ensures Consistent(rules, preds, golds, js)
  {
    assert js == Properly(raws)[..|js|];
    ConsistentPrefix(rules, preds, golds, Properly(raws), |js|);
  }

  lemma RefusedAt(rules: Rules, preds: Predictions, golds: Golds, raws: seq<RawRow>, js: seq<Judgment>)
    requires Begun(raws, js) && !Consistent(rules, preds, golds, js)
    ensures !AnswerAccepted(rules, preds, golds, Some(raws))
  {
    if AnswerAccepted(rules, preds, golds, Some(raws)) {
      BegunConsistent(rules, preds, golds, raws, js);
    }
  }

  lemma AcceptedIffAllSeen(
      rules: Rules, preds: Predictions, golds: Golds, raws: seq<RawRow>, js: seq<Judgment>, seen: set<string>,
      matched: set<string>)
    requires Begun(raws, js) && |js| == |raws| && Consistent(rules, preds, golds, js) && Tallied(js, seen, matched)
    ensures AllProper(raws) && js == Properly(raws)
    ensures AnswerAccepted(rules, preds, golds, Some(raws)) <==> seen == preds.Keys
  {
    assert js == Properly(raws);
    CoversIffAllSeen(preds, js, seen, matched);
  }

  lemma RowsOneMore(preds: Predictions, js: seq<Judgment>, rows: seq<Row>, j: Judgment)
    requires RowsOf(preds, js, rows) && j.prediction in preds && j.owner.Some? && j.deadline.Some? && j.quote.Some?
    ensures RowsOf(preds, js + [j], rows + [RowOf(preds, j)])
  {
  }

  /** An answer is accepted exactly when it is a partial one-to-one matching that judges every prediction once. */
  method ValidateJudgments(rules: Rules, payload: Option<seq<RawRow>>, predictions: seq<Prediction>, gold: seq<Gold>)
      returns (r: Result<seq<Row>, string>)
    ensures r.Ok? <==> AnswerAccepted(rules, PredictionMap(predictions), GoldMap(gold), payload)
    ensures r.Ok? ==> RowsOf(PredictionMap(predictions), Properly(payload.value), r.value)
  {
    if payload.None? {
      return Err("Missing judgment rows");
    }
    var raws, preds, golds := payload.value, PredictionMap(predictions), GoldMap(gold);
    var seen, matched, rows := {}, {}, [];
    ghost var js: seq<Judgment> := [];
    for i := 0 to |raws|
      invariant |js| == i && Begun(raws, js)
      invariant Consistent(rules, preds, golds, js) && Tallied(js, seen, matched)
      invariant RowsOf(preds, js, rows)
    {
      if raws[i].Malformed? {
        return Err("Malformed judgment row");
      }
      var j := raws[i].row;
      ConsistentOneMore(rules, preds, golds, js, j, seen, matched);
      var error := CheckRow(rules, preds, golds, seen, matched, j);
      if error.Some? {
        RefusedAt(rules, preds, golds, raws, js + [j]);
        return Err(error.value);
      }
      TallyOneMore(js, j, seen, matched);
      RowsOneMore(preds, js, rows, j);
      seen := seen + {j.prediction};
      if j.category == Match {
        matched := matched + {j.gold.value};
      }
      rows := rows + [RowOf(preds, j)];
      js := js + [j];
    }
    AcceptedIffAllSeen(rules, preds, golds, raws, js, seen, matched);
    if seen != preds.Keys {
      return Err("Judge omitted predictions");
    }
    return Ok(rows);
  }

  // ----- What an accepted answer is

  /** Accepted rows as a matching: each prediction once, each gold task at most once, no credit without a match. */
  ghost predicate Matching(rules: Rules, preds: Predictions, golds: Golds, rows: seq<Row>) {
    && (forall i :: 0 <= i < |rows| ==> Judged(preds, rows[i]) && Sound(rules, golds, rows[i]))
    && (forall i, k :: 0 <= i < k < |rows| ==> rows[i].prediction != rows[k].prediction)
    && (forall i, k :: 0 <= i < k < |rows| && IsMatch(rows[i]) && IsMatch(rows[k]) ==> rows[i].gold != rows[k].gold)
    && (forall p :: p in preds ==> exists i :: 0 <= i < |rows| && rows[i].prediction == p)
  }

  predicate Judged(preds: Predictions, r: Row) {
    r.prediction in preds && r.predictedDeadline == preds[r.prediction].deadline
  }

  /** No field credit without a match, and none for a deadline that either side leaves open. */
  predicate Sound(rules: Rules, golds: Golds, r: Row) {
    if IsMatch(r) then
      && r.gold.Some? && r.gold.value in golds
      && (r.deadlineCorrect ==> !rules.abstains(golds[r.gold.value].deadline) && !rules.abstains(r.predictedDeadline))
    else r.gold.None? && !r.ownerCorrect && !r.deadlineCorrect
  }

  lemma AcceptedIsMatching(rules: Rules, preds: Predictions, golds: Golds, js: seq<Judgment>, rows: seq<Row>)
    requires Accepted(rules, preds, golds, js) && RowsOf(preds, js, rows)
    ensures Matching(rules, preds, golds, rows)
  {
    forall i | 0 <= i < |rows| ensures Judged(preds, rows[i]) && Sound(rules, golds, rows[i]) {
      assert RowOk(rules, preds, golds, js[i]);
    }
    forall p | p in preds ensures exists i :: 0 <= i < |rows| && rows[i].prediction == p {
      var i :| 0 <= i < |js| && js[i].prediction == p;
      assert rows[i].prediction == p;
    }
  }

  /** A row the judge may give: of a known category, decided on both fields, and saying why in the meeting's words. */
  ghost predicate WellFounded(rules: Rules, j: Judgment) {
    && j.category in {Match, Discussion, Duplicate, Unsupported, WrongTask}
    && (exists reason :: j.reason == Some(reason) && !rules.blank(reason))
    && (exists quote :: j.quote == Some(quote) && (|quote| == 0 || rules.inText(quote)))
    && j.owner != None && j.deadline != None
  }

  /** Credit a row may take: for a match with a known gold task, quoted, and for a deadline that both sides state. */
  ghost predicate Deserved(rules: Rules, preds: Predictions, golds: Golds, j: Judgment) {
    if j.category != Match then j.gold == None && j.owner != Some(true) && j.deadline != Some(true)
    else
      && j.quote != Some("")
      && exists g :: g in golds && j.gold == Some(g)
           && (j.deadline == Some(true) ==>
                 j.prediction in preds && !rules.abstains(golds[g].deadline)
                 && !rules.abstains(preds[j.prediction].deadline))
  }

  /** These are all the demands on one row. */
  lemma RowOkIff(rules: Rules, preds: Predictions, golds: Golds, j: Judgment)
    ensures RowOk(rules, preds, golds, j) <==>
            j.prediction in preds && WellFounded(rules, j) && Deserved(rules, preds, golds, j)
  {
    if RowOk(rules, preds, golds, j) {
      assert j.reason == Some(j.reason.value) && j.quote == Some(j.quote.value);
    }
  }

  function JudgedIds(rows: seq<Row>): set<string> {
    set i | 0 <= i < |rows| :: rows[i].prediction
  }

  /** The gold ids of the rows that satisfy `q`. */
  function IdsOf(q: Row -> bool, rows: seq<Row>): set<string> {
    set i | 0 <= i < |rows| && q(rows[i]) && rows[i].gold.Some? :: rows[i].gold.value
  }

  function MatchedIds(rows: seq<Row>): set<string> {
    IdsOf(IsMatch, rows)
  }

  lemma {:induction false} JudgedIdsCount(rows: seq<Row>)
    requires forall i, k :: 0 <= i < k < |rows| ==> rows[i].prediction != rows[k].prediction
    ensures |JudgedIds(rows)| == |rows|
  {
    if rows != [] {
      var front, last := rows[..|rows| - 1], rows[|rows| - 1];
      JudgedIdsCount(front);
      assert JudgedIds(rows) == JudgedIds(front) + {last.prediction};
    }
  }

  lemma IdsOneMore(q: Row -> bool, front: seq<Row>, last: Row)
    requires q(last) ==> last.gold.Some?
    requires forall i :: 0 <= i < |front| && q(front[i]) && q(last) ==> front[i].gold != last.gold
    ensures IdsOf(q, front + [last]) == if q(last) then IdsOf(q, front) + {last.gold.value} else IdsOf(q, front)
    ensures q(last) ==> last.gold.value !in IdsOf(q, front)
  {
    var all := front + [last];
    assert all[|front|] == last && forall i :: 0 <= i < |front| ==> all[i] == front[i];
    forall id | id in IdsOf(q, front) ensures id in IdsOf(q, all) {
      var i :| 0 <= i < |front| && q(front[i]) && front[i].gold == Some(id);
      assert q(all[i]);
    }
  }

  /** Among matched rows, which share no gold task, as many rows as ids. */
  lemma {:induction false} IdsCount(q: Row -> bool, rows: seq<Row>)
    requires forall i :: 0 <= i < |rows| && q(rows[i]) ==> rows[i].gold.Some?
    requires forall i, k :: 0 <= i < k < |rows| && q(rows[i]) && q(rows[k]) ==> rows[i].gold != rows[k].gold
    ensures |IdsOf(q, rows)| == Count(q, rows)
  {
    if rows != [] {
      var front, last := rows[..|rows| - 1], rows[|rows| - 1];
      assert rows == front + [last];
      IdsCount(q, front);
      IdsOneMore(q, front, last);
    }
  }

  lemma MatchesHaveGold(rules: Rules, preds: Predictions, golds: Golds, rows: seq<Row>)
    requires Matching(rules, preds, golds, rows)
    ensures forall i :: 0 <= i < |rows| && IsMatch(rows[i]) ==>
              rows[i].prediction in preds && rows[i].gold.Some? && rows[i].gold.value in golds
  {
    forall i | 0 <= i < |rows| ensures Judged(preds, rows[i]) && Sound(rules, golds, rows[i]) {
    }
  }

  lemma JudgedAreAll(rules: Rules, preds: Predictions, golds: Golds, rows: seq<Row>)
    requires Matching(rules, preds, golds, rows)
    ensures JudgedIds(rows) == preds.Keys
  {
    forall i | 0 <= i < |rows| ensures rows[i].prediction in preds {
      assert Judged(preds, rows[i]);
    }
  }

  /** As many rows as predictions, and no more matches than gold tasks. */
  lemma {:induction false} MatchingCounts(rules: Rules, preds: Predictions, golds: Golds, rows: seq<Row>)
    requires Matching(rules, preds, golds, rows)
    ensures |rows| == |preds| && Count(IsMatch, rows) == |MatchedIds(rows)| <= |golds|
    ensures MatchedIds(rows) <= golds.Keys
  {
    JudgedIdsCount(rows);
    JudgedAreAll(rules, preds, golds, rows);
    MatchesHaveGold(rules, preds, golds, rows);
    IdsCount(IsMatch, rows);
    SubsetSize(MatchedIds(rows), golds.Keys);
  }

  lemma {:induction false} SubsetSize<T>(a: set<T>, b: set<T>)
    requires a <= b
    ensures |a| <= |b|
  {
    if a != {} {
      var x :| x in a;
      SubsetSize(a - {x}, b - {x});
    }
  }
}
