/** Continuing a fixed run: which cases are still pending, and merging the two sealed runs. */
module Closure {
  import opened Basics

  datatype Status = Pass | Fail | NotEvaluated | UnknownStatus

  /** A manifest or result row; `body` is everything the checks do not look at. */
  datatype Row = Row(
    qa: Option<string>, question: Option<string>, method_: Option<string>, sequence: Option<int>, status: Status,
    body: nat)

  datatype Id = Id(qa: string, method_: string)

  /** `fingerprints` lists the required ones in their fixed order; an absent or blank one is `None`. */
  datatype SealedRun = SealedRun(
    isSealed: bool, runId: Option<string>, fingerprints: Option<seq<Option<string>>>, results: Option<seq<Row>>)

  datatype Outcome = Outcome(row: Row, source: string)

  const REQUIRED_FINGERPRINTS := 7

  predicate Terminal(row: Row) {
    row.status == Pass || row.status == Fail
  }

  /** Both names of the question must agree; a missing part leaves the row without identity. */
  function IdentityOf(row: Row): Option<Id> {
    if row.qa.Some? && row.question.Some? && row.qa != row.question then None
    else
      var qa := if row.qa.Some? then row.qa else row.question;
      if qa.None? || |qa.value| == 0 || row.method_.None? || |row.method_.value| == 0 then None
      else Some(Id(qa.value, row.method_.value))
  }

  /** A row has exactly the identity that its method and each of its names for the question give; none is empty. */
  lemma IdentityIs(row: Row, qa: string, method_: string)
    ensures IdentityOf(row) == Some(Id(qa, method_)) <==>
              && |qa| > 0 && |method_| > 0 && row.method_ == Some(method_)
              && (row.qa == Some(qa) || (row.qa.None? && row.question == Some(qa)))
              && (row.question == Some(qa) || row.question.None?)
  {
  }

  type Expected = map<Id, Row>

  ghost predicate AllIdentified(rows: seq<Row>) {
    forall i :: 0 <= i < |rows| ==> IdentityOf(rows[i]).Some?
  }

  ghost predicate AllDifferent(rows: seq<Row>) {
    forall i, k :: 0 <= i < k < |rows| ==> IdentityOf(rows[i]) != IdentityOf(rows[k])
  }

  ghost predicate ExpectedOk(expected: seq<Row>) {
    expected != [] && AllIdentified(expected) && AllDifferent(expected)
  }

  /** The manifest by identity. */
  ghost predicate Indexed(expected: seq<Row>, byId: Expected) {
    && (forall i :: 0 <= i < |expected| ==>
          IdentityOf(expected[i]).Some? && IdentityOf(expected[i]).value in byId
          && byId[IdentityOf(expected[i]).value] == expected[i])
    && (forall id :: id in byId ==> exists i :: 0 <= i < |expected| && IdentityOf(expected[i]) == Some(id))
  }

  /** These are the cases that the rows name, each once. */
  ghost predicate NamesCases(rows: seq<Row>, ids: seq<Id>) {
    && |ids| == |rows| && (forall i :: 0 <= i < |rows| ==> IdentityOf(rows[i]) == Some(ids[i]))
    && forall i, k :: 0 <= i < k < |ids| ==> ids[i] != ids[k]
  }

  /** A manifest is in order exactly when it has rows and they name as many different cases. */
  lemma ManifestOkIff(expected: seq<Row>)
    ensures ExpectedOk(expected) <==> |expected| > 0 && exists ids :: NamesCases(expected, ids)
  {
    if ExpectedOk(expected) {
      var ids := seq(|expected|, i requires 0 <= i < |expected| => IdentityOf(expected[i]).value);
      assert NamesCases(expected, ids);
    }
  }

  /** A case is settled by a run exactly when a row of it says so, passed or failed. */
  lemma SettledIff(rows: seq<Row>, id: Id)
    ensures id in Terminals(rows) <==>
              exists i :: 0 <= i < |rows| && IdentityOf(rows[i]) == Some(id) && rows[i].status in {Pass, Fail}
  {
    if id in Terminals(rows) {
      var i :| 0 <= i < |rows| && Terminal(rows[i]) && IdentityOf(rows[i]) == Some(id);
      assert rows[i].status in {Pass, Fail};
    }
  }

  /** A result row that belongs to the manifest. */
  predicate RowOk(byId: Expected, row: Row) {
    var id := IdentityOf(row);
    && id.Some? && id.value in byId && (row.sequence.None? || row.sequence == byId[id.value].sequence)
    && row.status != UnknownStatus
  }

  ghost predicate RunOk(byId: Expected, rows: seq<Row>) {
    (forall i :: 0 <= i < |rows| ==> RowOk(byId, rows[i])) && AllDifferent(rows)
  }

  /** The terminal outcomes of a run, by identity. */
  function Outcomes(rows: seq<Row>, source: string): map<Id, Outcome> {
    if rows == [] then map[]
    else
      var before, last := Outcomes(rows[..|rows| - 1], source), rows[|rows| - 1];
      if Terminal(last) && IdentityOf(last).Some? then before[IdentityOf(last).value := Outcome(last, source)]
      else before
  }

  function Terminals(rows: seq<Row>): set<Id> {
    set i | 0 <= i < |rows| && Terminal(rows[i]) && IdentityOf(rows[i]).Some? :: IdentityOf(rows[i]).value
  }

  lemma {:induction false} OutcomesKeys(rows: seq<Row>, source: string)
    ensures Outcomes(rows, source).Keys == Terminals(rows)
  {
    if rows != [] {
      var front, last := rows[..|rows| - 1], rows[|rows| - 1];
      OutcomesKeys(front, source);
      if Terminal(last) && IdentityOf(last).Some? {
        assert Terminals(rows) == Terminals(front) + {IdentityOf(last).value};
      } else {
        assert Terminals(rows) == Terminals(front);
      }
    }
  }

  lemma {:induction false} OutcomesFrom(rows: seq<Row>, source: string, id: Id)
    requires id in Outcomes(rows, source)
    ensures var o := Outcomes(rows, source)[id];
            o.row in rows && Terminal(o.row) && IdentityOf(o.row) == Some(id) && o.source == source
  {
    var front, last := rows[..|rows| - 1], rows[|rows| - 1];
    if !(Terminal(last) && IdentityOf(last) == Some(id)) {
      OutcomesFrom(front, source, id);
    }
  }

  // ----- The manifest

  method ExpectedByIdentity(expected: seq<Row>) returns (r: Result<Expected, string>)
    ensures r.Ok? <==> ExpectedOk(expected)
    ensures r.Ok? ==> Indexed(expected, r.value)
  {
    if expected == [] {
      return Err("expected method-case order is empty");
    }
    var byId: Expected := map[];
    for i := 0 to |expected|
      invariant Indexed(expected[..i], byId) && AllDifferent(expected[..i])
    {
      var id := IdentityOf(expected[i]);
      if id.None? {
        return Err("method-case identity is incomplete");
      }
      NewIffDifferent(expected, byId, i);
      if id.value in byId {
        return Err("expected method-case order contains a duplicate");
      }
      IndexOneMore(expected[..i], byId, expected[i]);
      assert expected[..i] + [expected[i]] == expected[..i + 1];
      byId := byId[id.value := expected[i]];
    }
    assert expected[..|expected|] == expected;
    return Ok(byId);
  }

  /** An identity already indexed is a duplicate, and only such. */
  lemma NewIffDifferent(expected: seq<Row>, byId: Expected, i: nat)
    requires i < |expected| && Indexed(expected[..i], byId) && AllDifferent(expected[..i])
             && IdentityOf(expected[i]).Some?
    ensures AllDifferent(expected[..i + 1]) <==> IdentityOf(expected[i]).value !in byId
    ensures AllDifferent(expected) ==> AllDifferent(expected[..i + 1])
  {
    var front, more, id := expected[..i], expected[..i + 1], IdentityOf(expected[i]);
    assert more[i] == expected[i] && forall k :: 0 <= k < i ==> more[k] == front[k];
    if id.value in byId {
      var k :| 0 <= k < |front| && IdentityOf(front[k]) == id;
      assert IdentityOf(more[k]) == IdentityOf(more[i]);
    }
  }

  lemma IndexOneMore(expected: seq<Row>, byId: Expected, row: Row)
    requires Indexed(expected, byId) && IdentityOf(row).Some? && IdentityOf(row).value !in byId
    ensures Indexed(expected + [row], byId[IdentityOf(row).value := row])
  {
    var all, more := expected + [row], byId[IdentityOf(row).value := row];
    forall id | id in more ensures exists i :: 0 <= i < |all| && IdentityOf(all[i]) == Some(id) {
      if id in byId {
        var i :| 0 <= i < |expected| && IdentityOf(expected[i]) == Some(id);
        assert IdentityOf(all[i]) == Some(id);
      } else {
        assert IdentityOf(all[|expected|]) == Some(id);
      }
    }
  }

  // ----- Reading one run

  function Ids(rows: seq<Row>): set<Id> {
    set i | 0 <= i < |rows| && IdentityOf(rows[i]).Some? :: IdentityOf(rows[i]).value
  }

  lemma IdsOneMore(rows: seq<Row>, row: Row)
    requires IdentityOf(row).Some?
    ensures Ids(rows + [row]) == Ids(rows) + {IdentityOf(row).value}
  {
    var all := rows + [row];
    assert all[|rows|] == row && forall i :: 0 <= i < |rows| ==> all[i] == rows[i];
    forall id ensures id in Ids(all) <==> id in Ids(rows) + {IdentityOf(row).value} {
      if id in Ids(rows) {
        var i :| 0 <= i < |rows| && IdentityOf(rows[i]).Some? && IdentityOf(rows[i]).value == id;
        assert IdentityOf(all[i]).value == id;
      }
    }
  }

  lemma RunOneMore(byId: Expected, rows: seq<Row>, row: Row)
    ensures RunOk(byId, rows + [row]) <==>
            RunOk(byId, rows) && RowOk(byId, row) && IdentityOf(row).value !in Ids(rows)
  {
    var all := rows + [row];
    assert all[|rows|] == row && forall i :: 0 <= i < |rows| ==> all[i] == rows[i];
    if RunOk(byId, all) {
      assert RowOk(byId, all[|rows|]);
      forall i | 0 <= i < |rows| ensures RowOk(byId, rows[i]) && IdentityOf(rows[i]) != IdentityOf(row) {
        assert RowOk(byId, all[i]) && IdentityOf(all[i]) != IdentityOf(all[|rows|]);
      }
    }
  }

  lemma RunPrefix(byId: Expected, rows: seq<Row>, n: nat)
    requires n <= |rows|
    ensures RunOk(byId, rows) ==> RunOk(byId, rows[..n])
  {
    assert forall i :: 0 <= i < n ==> rows[..n][i] == rows[i];
  }

  lemma {:induction false} OutcomesOneMore(rows: seq<Row>, row: Row, source: string)
    requires IdentityOf(row).Some?
    ensures Outcomes(rows + [row], source) ==
            if Terminal(row) then Outcomes(rows, source)[IdentityOf(row).value := Outcome(row, source)]
            else Outcomes(rows, source)
  {
    assert (rows + [row])[..|rows|] == rows;
  }

  /** Which cases have no terminal score yet, in manifest order. */
  function Pending(expected: seq<Row>, terminal: set<Id>): seq<Row> {
    if expected == [] then []
    else
      var before, last := Pending(expected[..|expected| - 1], terminal), expected[|expected| - 1];
      if IdentityOf(last).Some? && IdentityOf(last).value in terminal then before else before + [last]
  }

  /** The manifest names its cases by the first of the two names. */
  ghost predicate NamedByQa(expected: seq<Row>) {
    forall i :: 0 <= i < |expected| ==> expected[i].qa.Some?
  }

  /** A row that fits and is no second one of its case; any other refuses the run. */
  method CheckNext(byId: Expected, rows: seq<Row>, i: nat, seen: set<Id>) returns (ok: bool)
    requires i < |rows| && RunOk(byId, rows[..i]) && seen == Ids(rows[..i])
    ensures ok <==> RunOk(byId, rows[..i + 1])
    ensures ok ==> RowOk(byId, rows[i]) && IdentityOf(rows[i]).value !in seen
    ensures ok ==> Ids(rows[..i + 1]) == seen + {IdentityOf(rows[i]).value}
    ensures !ok ==> !RunOk(byId, rows)
  {
    RunOneMore(byId, rows[..i], rows[i]);
    assert rows[..i] + [rows[i]] == rows[..i + 1];
    ok := RowOk(byId, rows[i]) && IdentityOf(rows[i]).value !in seen;
    if ok {
      IdsOneMore(rows[..i], rows[i]);
    } else {
      RunPrefix(byId, rows, i + 1);
    }
  }

  lemma {:induction false} OutcomesNext(rows: seq<Row>, i: nat, source: string)
    requires i < |rows| && IdentityOf(rows[i]).Some? && IdentityOf(rows[i]).value !in Ids(rows[..i])
    ensures Outcomes(rows[..i + 1], source)
            == if Terminal(rows[i])
               then Outcomes(rows[..i], source)[IdentityOf(rows[i]).value := Outcome(rows[i], source)]
               else Outcomes(rows[..i], source)
  {
    assert rows[..i] + [rows[i]] == rows[..i + 1];
    OutcomesOneMore(rows[..i], rows[i], source);
  }

  /** The cases of a run with a terminal score, if all its rows belong to the manifest. */
  method TerminalCases(byId: Expected, rows: seq<Row>) returns (ok: bool, terminal: set<Id>)
    ensures ok <==> RunOk(byId, rows)
    ensures ok ==> terminal == Terminals(rows)
  {
    terminal := {};
    var seen: set<Id> := {};
    for i := 0 to |rows|
      invariant RunOk(byId, rows[..i]) && seen == Ids(rows[..i]) && terminal == Outcomes(rows[..i], []).Keys
    {
      ok := CheckNext(byId, rows, i, seen);
      if !ok {
        return;
      }
      OutcomesNext(rows, i, []);
      seen := seen + {IdentityOf(rows[i]).value};
      if Terminal(rows[i]) {
        terminal := terminal + {IdentityOf(rows[i]).value};
      }
    }
    assert rows[..|rows|] == rows;
    OutcomesKeys(rows, []);
    ok := true;
  }

  method DerivePending(expected: seq<Row>, rows: seq<Row>) returns (r: Result<seq<Row>, string>, ghost byId: Expected)
    requires NamedByQa(expected)
    ensures ExpectedOk(expected) ==> Indexed(expected, byId)
    ensures r.Ok? <==> ExpectedOk(expected) && RunOk(byId, rows)
    ensures r.Ok? ==> r.value == Pending(expected, Terminals(rows))
  {
    var indexed := ExpectedByIdentity(expected);
    byId := map[];
    if indexed.Err? {
      return Err(indexed.error), byId;
    }
    byId := indexed.value;
    var ok, terminal := TerminalCases(indexed.value, rows);
    if !ok {
      return Err("result is unknown, out of sequence, duplicate or has an unknown status"), byId;
    }
    var pending: seq<Row> := [];
    for i := 0 to |expected|
      invariant pending == Pending(expected[..i], terminal)
    {
      assert expected[..i + 1][..i] == expected[..i];
      assert IdentityOf(expected[i]) == Some(Id(expected[i].qa.value, expected[i].method_.value));
      if Id(expected[i].qa.value, expected[i].method_.value) !in terminal {
        pending := pending + [expected[i]];
      }
    }
    assert expected[..|expected|] == expected;
    return Ok(pending), byId;
  }

  // ----- Merging

  /** Where the loop over one run's rows stands after the first `n`. */
  ghost predicate Merging(
    byId: Expected, rows: seq<Row>, n: nat, source: string, before: map<Id, Outcome>, seen: set<Id>,
    outcomes: map<Id, Outcome>)
  {
    && n <= |rows| && RunOk(byId, rows[..n]) && seen == Ids(rows[..n])
    && outcomes == before + Outcomes(rows[..n], source) && Outcomes(rows[..n], source).Keys !! before.Keys
  }

  lemma MergingStarts(byId: Expected, rows: seq<Row>, source: string, before: map<Id, Outcome>)
    ensures Merging(byId, rows, 0, source, before, {}, before)
  {
    assert rows[..0] == [];
  }

  lemma {:induction false} MergingEnds(
      byId: Expected, rows: seq<Row>, source: string, before: map<Id, Outcome>, seen: set<Id>,
      outcomes: map<Id, Outcome>)
    requires Merging(byId, rows, |rows|, source, before, seen, outcomes)
    ensures RunOk(byId, rows) && Terminals(rows) !! before.Keys && outcomes == before + Outcomes(rows, source)
  {
    assert rows[..|rows|] == rows;
    OutcomesKeys(rows, source);
  }

  /** A terminal case that has an outcome already was settled by the other run. */
  lemma SettledTwice(byId: Expected, rows: seq<Row>, i: nat, source: string, before: map<Id, Outcome>, seen: set<Id>,
                     outcomes: map<Id, Outcome>)
    requires i < |rows| && Merging(byId, rows, i, source, before, seen, outcomes)
    requires Terminal(rows[i]) && IdentityOf(rows[i]).Some? && IdentityOf(rows[i]).value !in seen
    requires IdentityOf(rows[i]).value in outcomes
    ensures !(Terminals(rows) !! before.Keys)
  {
    OutcomesKeys(rows[..i], source);
    assert IdentityOf(rows[i]).value in Terminals(rows) && IdentityOf(rows[i]).value in before.Keys;
  }

  lemma NextMerges(byId: Expected, rows: seq<Row>, i: nat, source: string, before: map<Id, Outcome>, seen: set<Id>,
                   outcomes: map<Id, Outcome>)
    requires i < |rows| && Merging(byId, rows, i, source, before, seen, outcomes) && RunOk(byId, rows[..i + 1])
    requires IdentityOf(rows[i]).Some? && IdentityOf(rows[i]).value !in seen
    requires Ids(rows[..i + 1]) == seen + {IdentityOf(rows[i]).value}
    requires Terminal(rows[i]) ==> IdentityOf(rows[i]).value !in outcomes
    ensures var id := IdentityOf(rows[i]).value;
            Merging(byId, rows, i + 1, source, before, seen + {id},
                    if Terminal(rows[i]) then outcomes[id := Outcome(rows[i], source)] else outcomes)
  {
    OutcomesNext(rows, i, source);
  }

  /** Adding the outcome of one row. */
  method MergeRow(byId: Expected, rows: seq<Row>, i: nat, source: string, ghost before: map<Id, Outcome>, seen: set<Id>,
                  outcomes: map<Id, Outcome>)
      returns (ok: bool, seen': set<Id>, outcomes': map<Id, Outcome>)
    requires i < |rows| && Merging(byId, rows, i, source, before, seen, outcomes)
    ensures ok ==> Merging(byId, rows, i + 1, source, before, seen', outcomes')
    ensures !ok ==> !(RunOk(byId, rows) && Terminals(rows) !! before.Keys)
  {
    seen', outcomes' := seen, outcomes;
    ok := CheckNext(byId, rows, i, seen);
    if !ok {
      return;
    }
    var id := IdentityOf(rows[i]).value;
    if rows[i].status != NotEvaluated && id in outcomes {
      SettledTwice(byId, rows, i, source, before, seen, outcomes);
      return false, seen, outcomes;
    }
    NextMerges(byId, rows, i, source, before, seen, outcomes);
    seen' := seen + {id};
    if rows[i].status != NotEvaluated {
      outcomes' := outcomes[id := Outcome(rows[i], source)];
    }
  }

  /** Adding one run's terminal outcomes to those already there. */
  method MergeRun(byId: Expected, rows: seq<Row>, source: string, before: map<Id, Outcome>)
      returns (ok: bool, outcomes: map<Id, Outcome>)
    ensures ok <==> RunOk(byId, rows) && Terminals(rows) !! before.Keys
    ensures ok ==> outcomes == before + Outcomes(rows, source)
  {
    outcomes := before;
    var seen: set<Id> := {};
    MergingStarts(byId, rows, source, before);
    for i := 0 to |rows|
      invariant Merging(byId, rows, i, source, before, seen, outcomes)
    {
      ok, seen, outcomes := MergeRow(byId, rows, i, source, before, seen, outcomes);
      if !ok {
        return;
      }
    }
    MergingEnds(byId, rows, source, before, seen, outcomes);
    ok := true;
  }

  /** The terminal outcomes of both runs, if no case is settled twice. */
  method MergeBoth(byId: Expected, a: seq<Row>, idA: string, b: seq<Row>, idB: string)
      returns (ok: bool, outcomes: map<Id, Outcome>)
    ensures ok <==> RunOk(byId, a) && RunOk(byId, b) && Terminals(a) !! Terminals(b)
    ensures ok ==> outcomes == Outcomes(a, idA) + Outcomes(b, idB) && outcomes.Keys == Terminals(a) + Terminals(b)
  {
    OutcomesKeys(a, idA);
    OutcomesKeys(b, idB);
    ok, outcomes := MergeRun(byId, a, idA, map[]);
    if ok {
      ok, outcomes := MergeRun(byId, b, idB, outcomes);
    }
  }

  /** The demands on the two runs besides their rows. */
  predicate HeadersOk(a: SealedRun, b: SealedRun) {
    && a.isSealed && b.isSealed
    && a.runId.Some? && |a.runId.value| > 0 && b.runId.Some? && |b.runId.value| > 0 && a.runId != b.runId
    && FingerprintsOk(a) && FingerprintsOk(b) && a.fingerprints == b.fingerprints
    && a.results.Some? && b.results.Some?
  }

  predicate FingerprintsOk(a: SealedRun) {
    a.fingerprints.Some? && |a.fingerprints.value| == REQUIRED_FINGERPRINTS && None !in a.fingerprints.value
  }

  /** The two runs share the manifest's cases between them. */
  ghost predicate Shared(byId: Expected, a: seq<Row>, b: seq<Row>) {
    RunOk(byId, a) && RunOk(byId, b) && Terminals(a) !! Terminals(b) && byId.Keys == Terminals(a) + Terminals(b)
  }

  /** One outcome for every case, in manifest order. */
  ghost predicate InOrder(expected: seq<Row>, outcomes: map<Id, Outcome>, results: seq<Outcome>) {
    && |results| == |expected|
    && forall i :: 0 <= i < |expected| ==>
         IdentityOf(expected[i]).Some? && IdentityOf(expected[i]).value in outcomes
         && results[i] == outcomes[IdentityOf(expected[i]).value]
  }

  ghost predicate AllSettled(expected: seq<Row>, outcomes: map<Id, Outcome>) {
    forall i :: 0 <= i < |expected| ==> IdentityOf(expected[i]).Some? && IdentityOf(expected[i]).value in outcomes
  }

  method InManifestOrder(expected: seq<Row>, outcomes: map<Id, Outcome>) returns (ok: bool, results: seq<Outcome>)
    requires forall i :: 0 <= i < |expected| ==> IdentityOf(expected[i]).Some?
    ensures ok <==> AllSettled(expected, outcomes)
    ensures ok ==> InOrder(expected, outcomes, results)
  {
    results := [];
    for i := 0 to |expected|
      invariant InOrder(expected[..i], outcomes, results)
    {
      var id := IdentityOf(expected[i]).value;
      if id !in outcomes {
        return false, results;
      }
      results := results + [outcomes[id]];
    }
    assert expected[..|expected|] == expected;
    ok := true;
  }

  /** All cases are settled exactly when the keys of the outcomes are those of the manifest. */
  lemma SettledIffShared(expected: seq<Row>, byId: Expected, a: seq<Row>, b: seq<Row>, outcomes: map<Id, Outcome>)
    requires Indexed(expected, byId) && RunOk(byId, a) && RunOk(byId, b) && Terminals(a) !! Terminals(b)
    requires outcomes.Keys == Terminals(a) + Terminals(b)
    ensures AllSettled(expected, outcomes) <==> Shared(byId, a, b)
  {
    TerminalsKnown(byId, a);
    TerminalsKnown(byId, b);
    if AllSettled(expected, outcomes) {
      forall id | id in byId ensures id in outcomes.Keys {
        var i :| 0 <= i < |expected| && IdentityOf(expected[i]) == Some(id);
      }
    }
  }

  lemma TerminalsKnown(byId: Expected, rows: seq<Row>)
    requires RunOk(byId, rows)
    ensures Terminals(rows) <= byId.Keys
  {
    forall id | id in Terminals(rows) ensures id in byId.Keys {
      var i :| 0 <= i < |rows| && Terminal(rows[i]) && IdentityOf(rows[i]).Some? && IdentityOf(rows[i]).value == id;
      assert RowOk(byId, rows[i]);
    }
  }

  /** Merging succeeds exactly when both headers pass and the terminal outcomes divide the manifest. */
  method Merge(expected: seq<Row>, original: SealedRun, continuation: SealedRun)
      returns (r: Result<seq<Outcome>, string>, ghost byId: Expected)
    ensures ExpectedOk(expected) ==> Indexed(expected, byId)
    ensures r.Ok? <==>
            ExpectedOk(expected) && HeadersOk(original, continuation)
            && Shared(byId, original.results.value, continuation.results.value)
    ensures r.Ok? ==>
              InOrder(expected, Outcomes(original.results.value, original.runId.value)
                                + Outcomes(continuation.results.value, continuation.runId.value), r.value)
  {
    byId := map[];
    var indexed := ExpectedByIdentity(expected);
    if indexed.Err? {
      return Err(indexed.error), byId;
    }
    var cases := indexed.value;
    byId := cases;
    if !HeadersOk(original, continuation) {
      return Err("MERGE_INVALID: a run is unsealed or unnamed, or the fingerprints are missing or differ"), byId;
    }
    var a, b := original.results.value, continuation.results.value;
    var ok, outcomes := MergeBoth(cases, a, original.runId.value, b, continuation.runId.value);
    if !ok {
      return Err("MERGE_INVALID: a result row is unknown, duplicate or settled twice"), byId;
    }
    SettledIffShared(expected, cases, a, b, outcomes);
    var results;
    ok, results := InManifestOrder(expected, outcomes);
    if !ok {
      return Err("MERGE_INVALID: missing terminal method-case outcome"), byId;
    }
    return Ok(results), byId;
  }

  // ----- What this means

  lemma {:induction false} PendingIs(expected: seq<Row>, terminal: set<Id>)
    requires forall i :: 0 <= i < |expected| ==> IdentityOf(expected[i]).Some?
    ensures Ids(Pending(expected, terminal)) == Ids(expected) - terminal
    ensures forall row :: row in Pending(expected, terminal) ==> row in expected
  {
    if expected != [] {
      var front, last := expected[..|expected| - 1], expected[|expected| - 1];
      PendingIs(front, terminal);
      assert expected == front + [last];
      IdsOneMore(front, last);
      IdsOneMore(Pending(front, terminal), last);
    }
  }

  /** Which rows of the manifest are pending, by their places. */
  function PendingPlaces(expected: seq<Row>, terminal: set<Id>): seq<nat> {
    if expected == [] then []
    else
      var n, before := |expected| - 1, PendingPlaces(expected[..|expected| - 1], terminal);
      if IdentityOf(expected[n]).Some? && IdentityOf(expected[n]).value in terminal then before else before + [n]
  }

  /** The pending rows are those of the manifest without a terminal score, each once, in the manifest's order. */
  lemma {:induction false} PendingInOrder(expected: seq<Row>, terminal: set<Id>)
    ensures var rows, places := Pending(expected, terminal), PendingPlaces(expected, terminal);
            && |rows| == |places|
            && (forall j, k :: 0 <= j < k < |places| ==> places[j] < places[k])
            && (forall k :: 0 <= k < |places| ==> places[k] < |expected| && rows[k] == expected[places[k]])
            && (forall i :: 0 <= i < |expected| ==>
                  (i in places <==> IdentityOf(expected[i]).None? || IdentityOf(expected[i]).value !in terminal))
  {
    if expected != [] {
      var n := |expected| - 1;
      PendingInOrder(expected[..n], terminal);
      var places, before := PendingPlaces(expected, terminal), PendingPlaces(expected[..n], terminal);
      forall i | 0 <= i < |expected|
        ensures i in places <==> IdentityOf(expected[i]).None? || IdentityOf(expected[i]).value !in terminal
      {
        assert i in places <==> i in before || (i == n && places == before + [n]);
        if i == n { assert n !in before; }
      }
    }
  }

  /** A row of the manifest's case: it agrees with the manifest about its place, if it has one. */
  predicate Belongs(row: Row, planned: Row) {
    && IdentityOf(row).Some? && IdentityOf(row) == IdentityOf(planned)
    && (row.sequence == planned.sequence || row.sequence.None?)
  }

  /** A row that passed, failed or was not evaluated, of some case of the manifest. */
  ghost predicate InManifest(expected: seq<Row>, row: Row) {
    row.status in {Pass, Fail, NotEvaluated} && exists k :: 0 <= k < |expected| && Belongs(row, expected[k])
  }

  /** A run is acceptable exactly when each of its rows is of a case of the manifest and no case has two rows. */
  lemma AcceptableIff(expected: seq<Row>, byId: Expected, rows: seq<Row>)
    requires ExpectedOk(expected) && Indexed(expected, byId)
    ensures RunOk(byId, rows) <==>
              && (forall i :: 0 <= i < |rows| ==> InManifest(expected, rows[i]))
              && (forall i, k :: 0 <= i < k < |rows| ==> IdentityOf(rows[i]) != IdentityOf(rows[k]))
  {
    forall i | 0 <= i < |rows| ensures RowOk(byId, rows[i]) <==> InManifest(expected, rows[i]) {
      InManifestIff(expected, byId, rows[i]);
    }
  }

  lemma InManifestIff(expected: seq<Row>, byId: Expected, row: Row)
    requires Indexed(expected, byId)
    ensures RowOk(byId, row) <==> InManifest(expected, row)
  {
    var id := IdentityOf(row);
    if RowOk(byId, row) {
      var k :| 0 <= k < |expected| && IdentityOf(expected[k]) == Some(id.value);
      assert Belongs(row, expected[k]);
    }
    if k :| 0 <= k < |expected| && Belongs(row, expected[k]) {
      assert byId[id.value] == expected[k];
    }
  }

  /**
   Two runs may be merged exactly when both are sealed, have results and different names, and were made with the same
   seven fingerprints.
   */
  lemma HeadersOkIff(a: SealedRun, b: SealedRun)
    ensures HeadersOk(a, b) <==>
              exists nameA, nameB, prints ::
                MergeableAs(a, nameA, prints) && MergeableAs(b, nameB, prints) && nameA != nameB
  {
    if HeadersOk(a, b) {
      var prints := seq(7, i requires 0 <= i < 7 => PrintAt(a, i));
      assert MergeableAs(a, a.runId.value, prints) && MergeableAs(b, b.runId.value, prints);
    }
    if nameA, nameB, prints :| MergeableAs(a, nameA, prints) && MergeableAs(b, nameB, prints) && nameA != nameB {
      assert a.fingerprints.value == b.fingerprints.value;
    }
  }

  function PrintAt(a: SealedRun, i: nat): string {
    if a.fingerprints.Some? && i < |a.fingerprints.value| && a.fingerprints.value[i].Some?
    then a.fingerprints.value[i].value else ""
  }

  predicate MergeableAs(a: SealedRun, name: string, prints: seq<string>) {
    && a.isSealed && a.results.Some? && a.runId == Some(name) && |name| > 0
    && a.fingerprints.Some? && |a.fingerprints.value| == |prints| == 7
    && forall i :: 0 <= i < 7 ==> a.fingerprints.value[i] == Some(prints[i])
  }

  lemma IdsAreKeys(expected: seq<Row>, byId: Expected)
    requires Indexed(expected, byId)
    ensures Ids(expected) == byId.Keys
  {
  }

  /**
   For acceptable runs, the merge is complete exactly when the continuation settled what was pending, and only that.
   */
  lemma {:induction false} MergeIffPendingSettled(expected: seq<Row>, byId: Expected, a: seq<Row>, b: seq<Row>)
    requires ExpectedOk(expected) && Indexed(expected, byId) && RunOk(byId, a) && RunOk(byId, b)
    ensures Shared(byId, a, b) <==> Terminals(b) == Ids(Pending(expected, Terminals(a)))
  {
    IdsAreKeys(expected, byId);
    PendingIs(expected, Terminals(a));
    TerminalsKnown(byId, a);
    TerminalsKnown(byId, b);
  }

  /** Each merged outcome is a terminal row of exactly one of the runs, under that run's id. */
  lemma {:induction false} FromExactlyOneRun(expected: seq<Row>, byId: Expected, a: seq<Row>, b: seq<Row>, idA: string,
                                             idB: string,
                          results: seq<Outcome>, i: nat)
    requires Indexed(expected, byId) && Shared(byId, a, b) && idA != idB && i < |expected|
    requires InOrder(expected, Outcomes(a, idA) + Outcomes(b, idB), results)
    ensures results[i].row.status in {Pass, Fail} && IdentityOf(results[i].row) == IdentityOf(expected[i])
    ensures (results[i].source == idA && results[i].row in a && IdentityOf(expected[i]).value !in Terminals(b))
         || (results[i].source == idB && results[i].row in b && IdentityOf(expected[i]).value !in Terminals(a))
  {
    var id := IdentityOf(expected[i]).value;
    OutcomesKeys(a, idA);
    OutcomesKeys(b, idB);
    if id in Outcomes(b, idB) {
      OutcomesFrom(b, idB, id);
    } else {
      OutcomesFrom(a, idA, id);
    }
  }

  /** Which run is called the original makes no difference. */
  lemma MergeSymmetric(byId: Expected, expected: seq<Row>, original: SealedRun, continuation: SealedRun)
    requires HeadersOk(original, continuation)
    ensures HeadersOk(continuation, original)
    ensures var a, b := original.results.value, continuation.results.value;
            && (Shared(byId, a, b) <==> Shared(byId, b, a))
            && (Shared(byId, a, b) ==>
                  Outcomes(a, original.runId.value) + Outcomes(b, continuation.runId.value)
                  == Outcomes(b, continuation.runId.value) + Outcomes(a, original.runId.value))
  {
    var a, b := original.results.value, continuation.results.value;
    OutcomesKeys(a, original.runId.value);
    OutcomesKeys(b, continuation.runId.value);
    if Shared(byId, a, b) {
      var ab := Outcomes(a, original.runId.value) + Outcomes(b, continuation.runId.value);
      var ba := Outcomes(b, continuation.runId.value) + Outcomes(a, original.runId.value);
      assert ab.Keys == ba.Keys;
      assert forall id :: id in ab ==> ab[id] == ba[id];
    }
  }
}
