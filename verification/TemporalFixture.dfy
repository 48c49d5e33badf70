/** A generated history of decisions: a hundred versions of each slot, each valid for one day and the last one open. */
module TemporalFixture {
  import opened Basics

  const VERSIONS := 100

  datatype Status = Superseded | Current

  /** Instants are whole numbers of some unit; `until` is exclusive and absent for the open version. */
  datatype Row = Row(index: nat, slot: nat, since: int, until: Option<int>, status: Status, supersedes: Option<nat>)

  function RowAt(start: int, day: int, index: nat): Row {
    var slot, version := index / VERSIONS, index % VERSIONS;
    var since := start + version * day;
    if version < VERSIONS - 1 then
      Row(index, slot, since, Some(since + day), Superseded, if version > 0 then Some(index - 1) else None)
    else Row(index, slot, since, None, Current, Some(index - 1))
  }

  /** The rows in order; a count that does not fill its last slot is refused. */
  method TemporalRows(start: int, day: int, count: int) returns (r: Result<seq<Row>, string>)
    ensures r.Ok? <==> count > 0 && count % VERSIONS == 0
    ensures r.Ok? ==> Generated(start, day, count, r.value)
  {
    if count <= 0 || count % VERSIONS != 0 {
      return Err("temporal count must be a positive multiple of 100");
    }
    var rows := [];
    for index := 0 to count
      invariant |rows| == index && forall i :: 0 <= i < index ==> rows[i] == RowAt(start, day, i)
    {
      rows := rows + [RowAt(start, day, index)];
    }
    return Ok(rows);
  }

  predicate Generated(start: int, day: int, count: int, rows: seq<Row>) {
    && count > 0 && count % VERSIONS == 0 && |rows| == count
    && forall i :: 0 <= i < count ==> rows[i] == RowAt(start, day, i)
  }

  /** Every row says where it stands; versions begin a day apart, and each supersedes the one before it. */
  lemma RowsSay(start: int, day: int, count: int, rows: seq<Row>, slot: nat, version: nat)
    requires Generated(start, day, count, rows) && version < 100 && slot * 100 + version < count
    ensures var row := rows[slot * 100 + version];
            && row.index == slot * 100 + version && row.slot == slot && row.since == start + version * day
            && row.until == (if version == 99 then None else Some(start + version * day + day))
            && row.status == (if version == 99 then Current else Superseded)
            && row.supersedes == (if version == 0 then None else Some(slot * 100 + version - 1))
  {
    SlotAndVersion(slot, version, slot * VERSIONS + version);
  }

  predicate Effective(row: Row, slot: nat, instant: int) {
    row.slot == slot && row.since <= instant && (row.until.None? || instant < row.until.value)
  }

  /** The formula: nothing before the start, then the version of the day, the last one for ever. */
  function AsOf(start: int, day: int, slot: nat, instant: int): Option<nat>
    requires day > 0
  {
    if instant < start then None
    else
      var days := (instant - start) / day;
      Some(slot * VERSIONS + if days < VERSIONS - 1 then days else VERSIONS - 1)
  }

  lemma DayBounds(start: int, day: int, instant: int, version: nat)
    requires day > 0 && start <= instant
    ensures start + version * day <= instant <==> version <= (instant - start) / day
  {
    var d := instant - start;
    var q := d / day;
    assert q * day <= d < q * day + day;
    if version <= q {
      assert version * day <= q * day;
    } else {
      assert version * day >= (q + 1) * day;
    }
  }

  /** A row of the slot is effective at an instant exactly when it is the one the formula names. */
  lemma EffectiveIffNamed(start: int, day: int, slot: nat, index: nat, instant: int)
    requires day > 0
    ensures Effective(RowAt(start, day, index), slot, instant) <==> AsOf(start, day, slot, instant) == Some(index)
  {
    var version := index % VERSIONS;
    assert index == (index / VERSIONS) * VERSIONS + version;
    if start <= instant {
      DayBounds(start, day, instant, version);
      DayBounds(start, day, instant, version + 1);
      assert (version + 1) * day == version * day + day;
      var latest := if (instant - start) / day < VERSIONS - 1 then (instant - start) / day else VERSIONS - 1;
      SlotAndVersion(slot, latest, index);
    } else {
      assert version * day >= 0;
    }
  }

  lemma SlotAndVersion(slot: nat, version: nat, index: nat)
    requires version < VERSIONS
    ensures index == slot * VERSIONS + version <==> index / VERSIONS == slot && index % VERSIONS == version
  {
  }

  /** From the start on exactly one row of each slot is effective, before it none, and it is the one of the formula. */
  lemma ExactlyOneEffective(start: int, day: int, count: int, rows: seq<Row>, slot: nat, instant: int)
    requires day > 0 && Generated(start, day, count, rows) && slot < count / VERSIONS
    ensures instant < start ==> forall i :: 0 <= i < count ==> !Effective(rows[i], slot, instant)
    ensures start <= instant ==>
              exists i :: 0 <= i < count && Effective(rows[i], slot, instant)
                  && AsOf(start, day, slot, instant) == Some(i)
                          && forall k :: 0 <= k < count && Effective(rows[k], slot, instant) ==> k == i
  {
    forall i | 0 <= i < count
      ensures Effective(rows[i], slot, instant) <==> AsOf(start, day, slot, instant) == Some(i)
    {
      EffectiveIffNamed(start, day, slot, i, instant);
    }
    if start <= instant {
      var i := AsOf(start, day, slot, instant).value;
      assert i < count by {
        assert (slot + 1) * VERSIONS <= count;
      }
    }
  }

  /** The first effective row, if there is one. */
  function Scan(rows: seq<Row>, slot: nat, instant: int): Option<nat> {
    if rows == [] then None
    else
      var before := Scan(rows[..|rows| - 1], slot, instant);
      if before.Some? then before
      else if Effective(rows[|rows| - 1], slot, instant) then Some(|rows| - 1)
      else None
  }

  lemma {:induction false} ScanFinds(rows: seq<Row>, slot: nat, instant: int)
    ensures Scan(rows, slot, instant).None? ==> forall i :: 0 <= i < |rows| ==> !Effective(rows[i], slot, instant)
    ensures Scan(rows, slot, instant).Some? ==>
              Scan(rows, slot, instant).value < |rows|
                  && Effective(rows[Scan(rows, slot, instant).value], slot, instant)
  {
    if rows != [] {
      ScanFinds(rows[..|rows| - 1], slot, instant);
    }
  }

  /** The formula agrees with the scan. */
  lemma {:induction false} FormulaIsScan(start: int, day: int, count: int, rows: seq<Row>, slot: nat, instant: int)
    requires day > 0 && Generated(start, day, count, rows) && slot < count / VERSIONS
    ensures Scan(rows, slot, instant) == AsOf(start, day, slot, instant)
  {
    ScanFinds(rows, slot, instant);
    ExactlyOneEffective(start, day, count, rows, slot, instant);
  }

  // ----- The query cases

  /** Before the history, its first day, inside, a boundary, the open version, and long after. */
  const CASE_DAYS: seq<int> := [-1, 0, 49, 50, 99, 150]

  datatype Query = Query(slot: nat, instant: int, expected: Option<nat>)

  function CaseAt(start: int, day: int, slot: nat, n: nat): Query {
    var version := CASE_DAYS[n % 6];
    Query(slot, start + version * day,
          if version < 0 then None
          else Some(slot * VERSIONS + (if version < VERSIONS - 1 then version else VERSIONS - 1)))
  }

  lemma Apart(a: int, b: int, day: int)
    requires a < b && day > 0
    ensures a * day + day <= b * day
  {
    assert (b - a - 1) * day >= 0;
  }

  lemma WholeDays(day: int, version: nat)
    requires day > 0
    ensures version * day / day == version
  {
    var q := version * day / day;
    if q < version {
      Apart(q, version, day);
    } else if q > version {
      Apart(version, q, day);
    }
  }

  /** Every expected answer of a query case is the one a scan of the generated rows finds. */
  lemma {:induction false} CaseIsScan(start: int, day: int, count: int, rows: seq<Row>, slot: nat, n: nat)
    requires day > 0 && Generated(start, day, count, rows) && slot < count / VERSIONS
    ensures var q := CaseAt(start, day, slot, n); Scan(rows, q.slot, q.instant) == q.expected
  {
    var version := CASE_DAYS[n % 6];
    FormulaIsScan(start, day, count, rows, slot, start + version * day);
    ExpectedAt(start, day, slot, version);
  }

  lemma ExpectedAt(start: int, day: int, slot: nat, version: int)
    requires day > 0
    ensures AsOf(start, day, slot, start + version * day) ==
            if version < 0 then None
            else Some(slot * VERSIONS + (if version < VERSIONS - 1 then version else VERSIONS - 1))
  {
    if version >= 0 {
      WholeDays(day, version);
    } else {
      assert version * day < 0;
    }
  }

  // ----- The chain of versions

  /** Following the links back from a row. */
  function Chain(start: int, day: int, index: nat): seq<nat>
    decreases index % VERSIONS
  {
    var row := RowAt(start, day, index);
    if row.supersedes.None? then [index] else [index] + Chain(start, day, row.supersedes.value)
  }

  lemma {:induction false} ChainFrom(start: int, day: int, slot: nat, version: nat)
    requires version < VERSIONS
    ensures var chain := Chain(start, day, slot * VERSIONS + version);
            |chain| == version + 1 && forall k :: 0 <= k <= version ==> chain[k] == slot * VERSIONS + version - k
  {
    SlotAndVersion(slot, version, slot * VERSIONS + version);
    if version > 0 {
      ChainFrom(start, day, slot, version - 1);
    }
  }

  /** Each slot has one current row; its links lead through all its versions, each ending where the next begins. */
  lemma OneChainPerSlot(start: int, day: int, slot: nat, index: nat)
    requires index / VERSIONS == slot
    ensures RowAt(start, day, index).status == Current <==> index == slot * VERSIONS + VERSIONS - 1
    ensures index in Chain(start, day, slot * VERSIONS + VERSIONS - 1)
    ensures RowAt(start, day, index).supersedes.Some? ==>
              RowAt(start, day, index - 1).slot == slot
                  && RowAt(start, day, index - 1).until == Some(RowAt(start, day, index).since)
  {
    var version := index % VERSIONS;
    assert index == slot * VERSIONS + version;
    ChainFrom(start, day, slot, VERSIONS - 1);
    assert Chain(start, day, slot * VERSIONS + VERSIONS - 1)[VERSIONS - 1 - version] == index;
    if version > 0 {
      SlotAndVersion(slot, version - 1, index - 1);
      assert version * day == (version - 1) * day + day;
    }
  }
}
