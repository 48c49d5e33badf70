/** The spot-check's field rules, applied to accepted rows in place, and the review fields around the judge's answer. */
module FieldReview {
  import opened Basics
  import opened Judging

  /** Language rules: unresolved pronouns, equal speaker roles, and durations the meeting gives for its next meeting. */
  datatype FieldRules = FieldRules(
    pronoun: string -> bool, sameRoles: (string, string) -> bool, nextMeeting: string -> bool,
    statedDuration: string -> bool)

  /** A deadline that names the next meeting is not an abstention. */
  ghost predicate RulesAgree(rules: Rules, fields: FieldRules) {
    forall d: string :: fields.nextMeeting(d) ==> !rules.abstains(d)
  }

  function ReviewedOwner(rules: Rules, fields: FieldRules, p: Prediction, g: Gold, was: bool): bool {
    if fields.pronoun(p.owner) then false
    else if !rules.abstains(p.owner) && fields.sameRoles(p.owner, g.owner) then true
    else was
  }

  function ReviewedDeadline(rules: Rules, fields: FieldRules, p: Prediction, g: Gold, was: bool): bool {
    was || (fields.nextMeeting(g.deadline) && !rules.abstains(p.deadline) && fields.statedDuration(p.deadline))
  }

  function Reviewed(rules: Rules, fields: FieldRules, preds: Predictions, golds: Golds, r: Row): Row {
    if !IsMatch(r) || r.prediction !in preds || r.gold.None? || r.gold.value !in golds then r
    else
      var p, g := preds[r.prediction], golds[r.gold.value];
      r.(ownerCorrect := ReviewedOwner(rules, fields, p, g, r.ownerCorrect),
         deadlineCorrect := ReviewedDeadline(rules, fields, p, g, r.deadlineCorrect))
  }

  function ReviewedAll(rules: Rules, fields: FieldRules, preds: Predictions, golds: Golds,
                       rows: seq<Row>): (s: seq<Row>)
    ensures |s| == |rows| && forall i :: 0 <= i < |rows| ==> s[i] == Reviewed(rules, fields, preds, golds, rows[i])
  {
    seq(|rows|, i requires 0 <= i < |rows| => Reviewed(rules, fields, preds, golds, rows[i]))
  }

  datatype Fields = Fields(owner: bool, deadline: bool)

  function FieldsOf(r: Row): Fields {
    Fields(r.ownerCorrect, r.deadlineCorrect)
  }

  /** What is noted beside a row: its fields before the review, if the review changed them. */
  function Noted(before: Row, after: Row): Option<Fields> {
    if FieldsOf(before) == FieldsOf(after) then None else Some(FieldsOf(before))
  }

  /** The field rules on one matched row. */
  method ReviewRow(rules: Rules, fields: FieldRules, row: Row, p: Prediction, g: Gold) returns (row': Row)
    ensures row' == row.(ownerCorrect := ReviewedOwner(rules, fields, p, g, row.ownerCorrect),
                         deadlineCorrect := ReviewedDeadline(rules, fields, p, g, row.deadlineCorrect))
  {
    row' := row;
    if fields.pronoun(p.owner) {
      row' := row'.(ownerCorrect := false);
    } else if !rules.abstains(p.owner) && fields.sameRoles(p.owner, g.owner) {
      row' := row'.(ownerCorrect := true);
    }
    if fields.nextMeeting(g.deadline) && !rules.abstains(p.deadline) {
      if fields.statedDuration(p.deadline) {
        row' := row'.(deadlineCorrect := true);
      }
    }
  }

  /** One row of any kind; only a match has fields to review. */
  method ReviewMatched(rules: Rules, fields: FieldRules, preds: Predictions, golds: Golds, row: Row) returns (row': Row)
    requires IsMatch(row) ==> row.prediction in preds && row.gold.Some? && row.gold.value in golds
    ensures row' == Reviewed(rules, fields, preds, golds, row)
  {
    row' := row;
    if IsMatch(row) {
      row' := ReviewRow(rules, fields, row, preds[row.prediction], golds[row.gold.value]);
    }
  }

  /** Reviewing the rows one after the other, in place. */
  method ReviewInPlace(rules: Rules, fields: FieldRules, rows: array<Row>, preds: Predictions, golds: Golds)
      returns (notes: seq<Option<Fields>>)
    requires forall i :: 0 <= i < rows.Length && IsMatch(rows[i]) ==>
               rows[i].prediction in preds && rows[i].gold.Some? && rows[i].gold.value in golds
    modifies rows
    ensures rows[..] == ReviewedAll(rules, fields, preds, golds, old(rows[..]))
    ensures |notes| == rows.Length && forall i :: 0 <= i < |notes| ==> notes[i] == Noted(old(rows[i]), rows[i])
  {
    ghost var was := rows[..];
    ghost var target := ReviewedAll(rules, fields, preds, golds, was);
    notes := [];
    for i := 0 to rows.Length
      invariant |notes| == i
      invariant forall k :: 0 <= k < i ==> rows[k] == target[k]
      invariant forall k :: i <= k < rows.Length ==> rows[k] == was[k]
      invariant forall k :: 0 <= k < i ==> notes[k] == Noted(was[k], target[k])
    {
      var row := rows[i];
      var reviewed := ReviewMatched(rules, fields, preds, golds, row);
      rows[i] := reviewed;
      notes := notes + [Noted(row, reviewed)];
    }
  }

  /** The accepted rows of one meeting, reviewed against its predictions and gold tasks. */
  method ReviewFields(rules: Rules, fields: FieldRules, rows: array<Row>, predictions: seq<Prediction>, gold: seq<Gold>)
      returns (notes: seq<Option<Fields>>)
    requires Matching(rules, PredictionMap(predictions), GoldMap(gold), rows[..])
    modifies rows
    ensures rows[..] == ReviewedAll(rules, fields, PredictionMap(predictions), GoldMap(gold), old(rows[..]))
    ensures |notes| == rows.Length && forall i :: 0 <= i < |notes| ==> notes[i] == Noted(old(rows[i]), rows[i])
  {
    MatchesHaveGold(rules, PredictionMap(predictions), GoldMap(gold), rows[..]);
    assert forall i :: 0 <= i < rows.Length ==> rows[..][i] == rows[i];
    notes := ReviewInPlace(rules, fields, rows, PredictionMap(predictions), GoldMap(gold));
  }

  lemma ReviewKeepsRow(rules: Rules, fields: FieldRules, preds: Predictions, golds: Golds, r: Row)
    requires RulesAgree(rules, fields) && Judged(preds, r) && Sound(rules, golds, r)
    ensures var after := Reviewed(rules, fields, preds, golds, r);
            && Judged(preds, after) && Sound(rules, golds, after)
            && after.prediction == r.prediction && after.gold == r.gold && after.category == r.category
  {
  }

  /** The review keeps the matching, with its rule that an open deadline earns no credit. */
  lemma ReviewKeepsMatching(rules: Rules, fields: FieldRules, preds: Predictions, golds: Golds, rows: seq<Row>,
                            after: seq<Row>)
    requires RulesAgree(rules, fields) && Matching(rules, preds, golds, rows)
    requires after == ReviewedAll(rules, fields, preds, golds, rows)
    ensures Matching(rules, preds, golds, after)
  {
    forall i | 0 <= i < |after|
      ensures Judged(preds, after[i]) && Sound(rules, golds, after[i])
      ensures after[i].prediction == rows[i].prediction && after[i].gold == rows[i].gold
              && IsMatch(after[i]) == IsMatch(rows[i])
    {
      ReviewKeepsRow(rules, fields, preds, golds, rows[i]);
    }
    forall p | p in preds ensures exists i :: 0 <= i < |after| && after[i].prediction == p {
      var i :| 0 <= i < |rows| && rows[i].prediction == p;
      assert after[i].prediction == p;
    }
  }

  /**
   What the review makes of a matched row's fields. Credit for the owner is taken away for a pronoun, given for a stated
   owner in the same role, and otherwise left; credit for the deadline is never taken away, and given exactly where the
   gold task waits for the next meeting and the prediction states a duration.
   */
  lemma ReviewedFields(rules: Rules, fields: FieldRules, preds: Predictions, golds: Golds, rows: seq<Row>,
                       after: seq<Row>, i: nat)
    requires Matching(rules, preds, golds, rows) && i < |rows| && IsMatch(rows[i])
    requires after == ReviewedAll(rules, fields, preds, golds, rows)
    ensures rows[i].prediction in preds && rows[i].gold.Some? && rows[i].gold.value in golds
    ensures var p, g := preds[rows[i].prediction], golds[rows[i].gold.value];
            && (fields.pronoun(p.owner) ==> !after[i].ownerCorrect)
            && (!fields.pronoun(p.owner) && !rules.abstains(p.owner) && fields.sameRoles(p.owner, g.owner) ==>
                  after[i].ownerCorrect)
            && (!fields.pronoun(p.owner) && (rules.abstains(p.owner) || !fields.sameRoles(p.owner, g.owner)) ==>
                  after[i].ownerCorrect == rows[i].ownerCorrect)
            && (rows[i].deadlineCorrect ==> after[i].deadlineCorrect)
            && (!rows[i].deadlineCorrect ==>
                  (after[i].deadlineCorrect <==> fields.nextMeeting(g.deadline) && fields.statedDuration(p.deadline)
                                                 && !rules.abstains(p.deadline)))
  {
    MatchesHaveGold(rules, preds, golds, rows);
  }

  /** A row that is no match is left as it is, and a note is made exactly of what was changed. */
  lemma OthersUnchanged(rules: Rules, fields: FieldRules, preds: Predictions, golds: Golds, rows: seq<Row>,
                        after: seq<Row>, i: nat)
    requires after == ReviewedAll(rules, fields, preds, golds, rows) && i < |rows|
    ensures !IsMatch(rows[i]) ==> after[i] == rows[i]
    ensures Noted(rows[i], after[i]).None? <==> after[i] == rows[i]
    ensures Noted(rows[i], after[i]).Some? ==>
              Noted(rows[i], after[i]).value == Fields(rows[i].ownerCorrect, rows[i].deadlineCorrect)
  {
  }

  /** Reviewing twice changes nothing more. */
  lemma ReviewIdempotent(rules: Rules, fields: FieldRules, preds: Predictions, golds: Golds, rows: seq<Row>)
    ensures var once := ReviewedAll(rules, fields, preds, golds, rows);
            ReviewedAll(rules, fields, preds, golds, once) == once
  {
  }

  // ----- The review fields around the judge's answer

  /** A row with its Chinese review fields; `translated` says that they are there and filled. */
  datatype ReviewedRow = NotReviewable | Reviewable(row: Judgment, translated: bool)

  /** A duplicate may name the gold task it repeats; that is kept apart and earns nothing. */
  function DuplicateOf(j: Judgment): Option<string> {
    if j.category == Duplicate then j.gold else None
  }

  function Bared(j: Judgment): Judgment {
    if DuplicateOf(j).Some? then j.(gold := None) else j
  }

  predicate AllReviewable(rs: seq<ReviewedRow>) {
    forall i :: 0 <= i < |rs| ==> rs[i].Reviewable?
  }

  function Bases(rs: seq<ReviewedRow>): (js: seq<Judgment>)
    requires AllReviewable(rs)
    ensures |js| == |rs| && forall i :: 0 <= i < |rs| ==> js[i] == Bared(rs[i].row)
  {
    seq(|rs|, i requires 0 <= i < |rs| => Bared(rs[i].row))
  }

  /** The gold ids of all rows that claim a match, before any of them is checked. */
  function ClaimedIds(rs: seq<ReviewedRow>): set<string> {
    set i | 0 <= i < |rs| && rs[i].Reviewable? && rs[i].row.category == Match
        && rs[i].row.gold.Some? :: rs[i].row.gold.value
  }

  predicate RowReviewable(golds: Golds, claimed: set<string>, r: ReviewedRow) {
    && r.Reviewable? && r.translated
    && (DuplicateOf(r.row).Some? ==> DuplicateOf(r.row).value in golds && DuplicateOf(r.row).value in claimed)
  }

  ghost predicate AllRowsReviewable(golds: Golds, rs: seq<ReviewedRow>) {
    forall i :: 0 <= i < |rs| ==> RowReviewable(golds, ClaimedIds(rs), rs[i])
  }

  /** Every gold task is translated once; an absent id stands for a malformed translation. */
  ghost predicate Translated(golds: Golds, gold: seq<Gold>, ids: seq<Option<string>>) {
    && |ids| == |gold| && (forall i :: 0 <= i < |ids| ==> ids[i].Some?)
    && (forall i, k :: 0 <= i < k < |ids| ==> ids[i] != ids[k])
    && (forall g :: g in golds <==> Some(g) in ids)
  }

  ghost predicate ReviewAccepted(rules: Rules, preds: Predictions, gold: seq<Gold>, ids: seq<Option<string>>,
                                 rs: seq<ReviewedRow>)
  {
    && Translated(GoldMap(gold), gold, ids)
    && AllRowsReviewable(GoldMap(gold), rs)
    && Accepted(rules, preds, GoldMap(gold), Bases(rs))
  }

  method CheckTranslations(gold: seq<Gold>, ids: seq<Option<string>>) returns (ok: bool)
    ensures ok <==> Translated(GoldMap(gold), gold, ids)
  {
    if |ids| != |gold| {
      return false;
    }
    var translated: set<string> := {};
    for i := 0 to |ids|
      invariant forall k :: 0 <= k < i ==> ids[k].Some?
      invariant forall g :: g in translated <==> Some(g) in ids[..i]
      invariant forall j, k :: 0 <= j < k < i ==> ids[j] != ids[k]
    {
      if ids[i].None? || ids[i].value in translated {
        return false;
      }
      translated := translated + {ids[i].value};
    }
    assert ids[..|ids|] == ids;
    return translated == GoldMap(gold).Keys;
  }

  /**
   The answer with its review fields: accepted exactly when every part is, and its rows are those of the bare answer.
   */
  method ReviewJudgments(rules: Rules, predictions: seq<Prediction>, gold: seq<Gold>, ids: seq<Option<string>>,
                         rs: seq<ReviewedRow>)
      returns (r: Result<seq<Row>, string>, repeats: seq<Option<string>>)
    ensures r.Ok? <==> ReviewAccepted(rules, PredictionMap(predictions), gold, ids, rs)
    ensures r.Ok? ==> RowsOf(PredictionMap(predictions), Bases(rs), r.value)
    ensures r.Ok? ==> |repeats| == |rs| && forall i :: 0 <= i < |rs| ==> repeats[i] == DuplicateOf(rs[i].row)
  {
    repeats := [];
    var complete := CheckTranslations(gold, ids);
    if !complete {
      return Err("Judge omitted gold translations"), repeats;
    }
    var golds, claimed := GoldMap(gold), ClaimedIds(rs);
    var base: seq<RawRow> := [];
    for i := 0 to |rs|
      invariant |base| == |repeats| == i
      invariant forall k :: 0 <= k < i ==> RowReviewable(golds, claimed, rs[k])
      invariant forall k :: 0 <= k < i ==> base[k] == Proper(Bared(rs[k].row)) && repeats[k] == DuplicateOf(rs[k].row)
    {
      if !RowReviewable(golds, claimed, rs[i]) {
        return Err("Review fields missing, or a duplicate repeats no matched gold task"), repeats;
      }
      base := base + [Proper(Bared(rs[i].row))];
      repeats := repeats + [DuplicateOf(rs[i].row)];
    }
    r := ValidateJudgments(rules, Some(base), predictions, gold);
    assert Properly(base) == Bases(rs);
  }

  /** A duplicate may name a gold task; for every other category the named task is the row's own. */
  predicate NamesRepeat(j: Judgment, gold: string) {
    j.category == Duplicate && j.gold == Some(gold)
  }

  /** Some row claims a match with the gold task. */
  ghost predicate ClaimsMatch(rs: seq<ReviewedRow>, gold: string) {
    exists k :: 0 <= k < |rs| && rs[k].Reviewable? && rs[k].row.category == Match && rs[k].row.gold == Some(gold)
  }

  /**
   The review fields are in order exactly when every row is translated and every gold task that a duplicate repeats is a
   known one that some row claims to match. The bare answer is the same, but that a duplicate names no gold task.
   */
  lemma RowsReviewableIff(golds: Golds, rs: seq<ReviewedRow>)
    ensures AllRowsReviewable(golds, rs) <==>
            forall i :: 0 <= i < |rs| ==>
              && rs[i].Reviewable? && rs[i].translated
              && forall g :: NamesRepeat(rs[i].row, g) ==> g in golds && ClaimsMatch(rs, g)
    ensures AllReviewable(rs) ==>
              forall i :: 0 <= i < |rs| ==>
                Bases(rs)[i] == rs[i].row.(gold := if rs[i].row.category == Duplicate then None else rs[i].row.gold)
  {
    forall g ensures g in ClaimedIds(rs) <==> ClaimsMatch(rs, g) {
    }
    forall i | 0 <= i < |rs|
      ensures RowReviewable(golds, ClaimedIds(rs), rs[i]) <==>
                && rs[i].Reviewable? && rs[i].translated
                && forall g :: NamesRepeat(rs[i].row, g) ==> g in golds && ClaimsMatch(rs, g)
    {
      if rs[i].Reviewable? && DuplicateOf(rs[i].row).Some? {
        assert NamesRepeat(rs[i].row, DuplicateOf(rs[i].row).value);
      }
    }
  }

  /** An accepted duplicate repeats a gold task that some accepted row matches, and earns no credit itself. */
  lemma DuplicatesRepeatMatches(rules: Rules, preds: Predictions, gold: seq<Gold>, ids: seq<Option<string>>,
                                rs: seq<ReviewedRow>,
                              rows: seq<Row>, i: nat)
    requires ReviewAccepted(rules, preds, gold, ids, rs) && RowsOf(preds, Bases(rs), rows)
    requires i < |rs| && DuplicateOf(rs[i].row).Some?
    ensures !rows[i].ownerCorrect && !rows[i].deadlineCorrect && rows[i].gold.None?
    ensures exists k :: 0 <= k < |rows| && IsMatch(rows[k]) && rows[k].gold == DuplicateOf(rs[i].row)
  {
    assert RowReviewable(GoldMap(gold), ClaimedIds(rs), rs[i]);
    var k :| 0 <= k < |rs| && rs[k].Reviewable? && rs[k].row.category == Match
        && rs[k].row.gold == DuplicateOf(rs[i].row);
    assert RowOk(rules, preds, GoldMap(gold), Bases(rs)[i]);
    assert IsMatch(rows[k]) && rows[k].gold == DuplicateOf(rs[i].row);
  }
}
