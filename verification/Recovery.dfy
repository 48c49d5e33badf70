/** What a journal and the files beside it say about each case after a crash. */
module Recovery {
  import opened Basics

  datatype Id = Id(qa: string, method_: string)

  datatype Case = Case(sequence: int, id: Id)

  datatype Kind = Started | AttemptStarted | Completed | OtherKind

  /** A journal event names its case by number, by identity, or by both. */
  datatype Event = Event(kind: Kind, sequence: Option<int>, qa: Option<string>, method_: Option<string>)

  datatype RecoveryState =
    | UNSTARTED | SAFE_TO_RESUME | UNKNOWN_PROVIDER_OUTCOME | OUTPUT_PERSISTED_PENDING_COMPLETION
    | SCORE_PENDING | SEALED | CORRUPT

  datatype Verdict = Verdict(case_: Case, state: RecoveryState)

  // ----- The plan as a table

  ghost predicate DistinctNumbers(cases: seq<Case>) {
    forall i, k :: 0 <= i < k < |cases| ==> cases[i].sequence != cases[k].sequence
  }

  /** Where the number first stands, or the length. */
  function PositionOf(cases: seq<Case>, n: int): (i: nat)
    ensures i <= |cases| && (i < |cases| ==> cases[i].sequence == n)
    ensures forall k :: 0 <= k < i ==> cases[k].sequence != n
  {
    if cases == [] then 0
    else
      var i := PositionOf(cases[..|cases| - 1], n);
      if i < |cases| - 1 || cases[|cases| - 1].sequence == n then i else |cases|
  }

  /** A case takes the place of an earlier one with its number, or comes behind all of them. */
  function Put(cases: seq<Case>, c: Case): seq<Case> {
    var i := PositionOf(cases, c.sequence);
    if i < |cases| then cases[i := c] else cases + [c]
  }

  /** The plan by number: a number that is planned again keeps its place and takes the later case. */
  function Entries(plan: seq<Case>): seq<Case> {
    if plan == [] then [] else Put(Entries(plan[..|plan| - 1]), plan[|plan| - 1])
  }

  lemma PutKeepsDistinct(cases: seq<Case>, c: Case)
    requires DistinctNumbers(cases)
    ensures DistinctNumbers(Put(cases, c))
    ensures forall n :: Numbers(Put(cases, c), n) <==> Numbers(cases, n) || n == c.sequence
  {
    var i, put := PositionOf(cases, c.sequence), Put(cases, c);
    forall n ensures Numbers(put, n) <==> Numbers(cases, n) || n == c.sequence {
      if Numbers(cases, n) {
        var k :| 0 <= k < |cases| && cases[k].sequence == n;
        assert put[k].sequence == n;
      }
      assert put[i].sequence == c.sequence;
    }
  }

  /** A table has each planned number once. */
  lemma {:induction false} EntriesDistinct(plan: seq<Case>)
    ensures DistinctNumbers(Entries(plan)) && forall n :: Numbers(Entries(plan), n) <==> Numbers(plan, n)
  {
    if plan != [] {
      var front, last := plan[..|plan| - 1], plan[|plan| - 1];
      EntriesDistinct(front);
      PutKeepsDistinct(Entries(front), last);
      forall n ensures Numbers(plan, n) <==> Numbers(front, n) || n == last.sequence {
        NumbersOneMore(front, last, n);
        assert plan == front + [last];
      }
    }
  }

  lemma NumbersOneMore(front: seq<Case>, last: Case, n: int)
    ensures Numbers(front + [last], n) <==> Numbers(front, n) || n == last.sequence
  {
    var all := front + [last];
    assert all[|front|] == last;
    if Numbers(front, n) {
      var i :| 0 <= i < |front| && front[i].sequence == n;
      assert all[i].sequence == n;
    }
  }

  /** The frozen plan gives every case its own number, so its table is the plan itself. */
  lemma {:induction false} EntriesOfDistinct(plan: seq<Case>)
    requires DistinctNumbers(plan)
    ensures Entries(plan) == plan
  {
    if plan != [] {
      var front, last := plan[..|plan| - 1], plan[|plan| - 1];
      EntriesOfDistinct(front);
      assert plan == front + [last];
      assert PositionOf(front, last.sequence) == |front|;
    }
  }

  // ----- Which case an event belongs to

  function OrEmpty(s: Option<string>): string {
    if s.Some? then s.value else []
  }

  predicate Numbers(plan: seq<Case>, n: int) {
    exists i :: 0 <= i < |plan| && plan[i].sequence == n
  }

  /** The cases by identity; a later case replaces an earlier one with the same identity. */
  function ById(plan: seq<Case>): map<Id, Case> {
    if plan == [] then map[] else ById(plan[..|plan| - 1])[plan[|plan| - 1].id := plan[|plan| - 1]]
  }

  function IdOf(e: Event): Id {
    Id(OrEmpty(e.qa), OrEmpty(e.method_))
  }

  /** The event's number decides if it is one of the plan's; otherwise its identity does. */
  predicate Points(plan: seq<Case>, e: Event, c: Case) {
    if e.sequence.Some? && Numbers(plan, e.sequence.value) then e.sequence.value == c.sequence
    else IdOf(e) in ById(plan) && ById(plan)[IdOf(e)] == c
  }

  /** An event that points to a case but names another. */
  predicate Misnamed(e: Event, c: Case) {
    (e.qa.Some? && e.qa.value != c.id.qa) || (e.method_.Some? && e.method_.value != c.id.method_)
  }

  ghost predicate JournalOk(plan: seq<Case>, events: seq<Event>) {
    forall e, c :: e in events && c in plan && Points(plan, e, c) ==> !Misnamed(e, c)
  }

  ghost predicate DistinctIds(cases: seq<Case>) {
    forall i, k :: 0 <= i < k < |cases| ==> cases[i].id != cases[k].id
  }

  lemma {:induction false} ByIdFinds(plan: seq<Case>, c: Case)
    requires DistinctIds(plan) && c in plan
    ensures c.id in ById(plan) && ById(plan)[c.id] == c
  {
    var front, last := plan[..|plan| - 1], plan[|plan| - 1];
    if c != last {
      ByIdFinds(front, c);
      var i :| 0 <= i < |plan| && plan[i] == c;
    }
  }

  lemma {:induction false} ByIdPlanned(plan: seq<Case>, id: Id)
    ensures id in ById(plan) ==> ById(plan)[id] in plan && ById(plan)[id].id == id
  {
    if plan != [] {
      ByIdPlanned(plan[..|plan| - 1], id);
    }
  }

  /**
   In a plan whose cases are told apart by identity and have no empty names, an event is taken for a case exactly when
   it gives the case's number and no other name, or no planned number and both of the case's names. An event with the
   number of one case and a name of another refuses the journal.
   */
  lemma TakenForIff(plan: seq<Case>, e: Event, c: Case)
    requires DistinctIds(plan) && c in plan && |c.id.qa| > 0 && |c.id.method_| > 0
    ensures Points(plan, e, c) && !Misnamed(e, c) <==>
              || (e.sequence == Some(c.sequence) && (e.qa.None? || e.qa == Some(c.id.qa))
                  && (e.method_.None? || e.method_ == Some(c.id.method_)))
              || ((e.sequence.None? || !Numbers(plan, e.sequence.value))
                  && e.qa == Some(c.id.qa) && e.method_ == Some(c.id.method_))
    ensures Points(plan, e, c) && Misnamed(e, c) <==>
              && e.sequence == Some(c.sequence)
              && ((e.qa.Some? && e.qa != Some(c.id.qa)) || (e.method_.Some? && e.method_ != Some(c.id.method_)))
  {
    ByIdFinds(plan, c);
    ByIdPlanned(plan, IdOf(e));
    var i :| 0 <= i < |plan| && plan[i] == c;
  }

  predicate Has(plan: seq<Case>, events: seq<Event>, c: Case, kind: Kind) {
    exists i :: 0 <= i < |events| && events[i].kind == kind && Points(plan, events[i], c)
  }

  function Classify(isStarted: bool, completed: bool, attempted: bool, output: bool, isSealed: bool): RecoveryState {
    if isSealed then SEALED
    else if output then
      if !isStarted then CORRUPT else if completed then SCORE_PENDING else OUTPUT_PERSISTED_PENDING_COMPLETION
    else if completed then CORRUPT
    else if attempted then UNKNOWN_PROVIDER_OUTCOME
    else if isStarted then SAFE_TO_RESUME
    else UNSTARTED
  }

  function StateOf(plan: seq<Case>, events: seq<Event>, outputs: set<int>, sealed_: set<int>, c: Case): RecoveryState {
    Classify(Has(plan, events, c, Started), Has(plan, events, c, Completed), Has(plan, events, c, AttemptStarted),
             c.sequence in outputs, c.sequence in sealed_)
  }

  // ----- The classification

  /** The events of each case, in the order of the journal. */
  ghost predicate Sorted(plan: seq<Case>, events: seq<Event>, byCase: map<int, seq<Event>>) {
    && (forall c :: c in plan ==> c.sequence in byCase)
    && (forall c, kind :: c in plan ==> (HasKind(byCase[c.sequence], kind) <==> Has(plan, events, c, kind)))
  }

  predicate HasKind(events: seq<Event>, kind: Kind) {
    exists i :: 0 <= i < |events| && events[i].kind == kind
  }

  lemma HasOneMore(plan: seq<Case>, events: seq<Event>, e: Event, c: Case, kind: Kind)
    ensures Has(plan, events + [e], c, kind) <==> Has(plan, events, c, kind) || (e.kind == kind && Points(plan, e, c))
  {
    var all := events + [e];
    assert all[|events|] == e;
    if Has(plan, events, c, kind) {
      var i :| 0 <= i < |events| && events[i].kind == kind && Points(plan, events[i], c);
      assert all[i].kind == kind && Points(plan, all[i], c);
    }
  }

  lemma HasKindOneMore(events: seq<Event>, e: Event, kind: Kind)
    ensures HasKind(events + [e], kind) <==> HasKind(events, kind) || e.kind == kind
  {
    var all := events + [e];
    assert all[|events|] == e;
    if HasKind(events, kind) {
      var i :| 0 <= i < |events| && events[i].kind == kind;
      assert all[i].kind == kind;
    }
  }

  lemma SortOneMore(plan: seq<Case>, events: seq<Event>, byCase: map<int, seq<Event>>, e: Event, to: Option<Case>)
    requires DistinctNumbers(plan) && Sorted(plan, events, byCase)
    requires to.Some? ==> to.value in plan
    requires forall c :: c in plan ==> (Points(plan, e, c) <==> to == Some(c))
    ensures Sorted(plan, events + [e],
                   if to.Some? then byCase[to.value.sequence := byCase[to.value.sequence] + [e]] else byCase)
  {
    var more := if to.Some? then byCase[to.value.sequence := byCase[to.value.sequence] + [e]] else byCase;
    forall c, kind | c in plan
      ensures c.sequence in more && (HasKind(more[c.sequence], kind) <==> Has(plan, events + [e], c, kind))
    {
      HasOneMore(plan, events, e, c, kind);
      if to == Some(c) {
        HasKindOneMore(byCase[c.sequence], e, kind);
      }
    }
  }

  /** An event points to one case at most. */
  lemma PointsToOne(plan: seq<Case>, e: Event, a: Case, b: Case)
    requires DistinctNumbers(plan) && a in plan && b in plan && Points(plan, e, a) && Points(plan, e, b)
    ensures a == b
  {
  }

  lemma SameNumberSameCase(plan: seq<Case>, a: Case, b: Case)
    requires DistinctNumbers(plan) && a in plan && b in plan && a.sequence == b.sequence
    ensures a == b
  {
  }

  function ByNumber(plan: seq<Case>): map<int, Case> {
    if plan == [] then map[] else ByNumber(plan[..|plan| - 1])[plan[|plan| - 1].sequence := plan[|plan| - 1]]
  }

  lemma {:induction false} NumberFound(plan: seq<Case>, i: nat)
    requires DistinctNumbers(plan) && i < |plan|
    ensures plan[i].sequence in ByNumber(plan) && ByNumber(plan)[plan[i].sequence] == plan[i]
  {
    if i < |plan| - 1 {
      NumberFound(plan[..|plan| - 1], i);
    }
  }

  lemma {:induction false} FoundPlanned(plan: seq<Case>, n: int, id: Id)
    ensures n in ByNumber(plan) ==> ByNumber(plan)[n] in plan && ByNumber(plan)[n].sequence == n
    ensures id in ById(plan) ==> ById(plan)[id] in plan && ById(plan)[id].id == id
  {
    if plan != [] {
      FoundPlanned(plan[..|plan| - 1], n, id);
    }
  }

  lemma {:induction false} NumbersIffFound(plan: seq<Case>, n: int)
    requires DistinctNumbers(plan)
    ensures n in ByNumber(plan) <==> Numbers(plan, n)
  {
    if Numbers(plan, n) {
      var i :| 0 <= i < |plan| && plan[i].sequence == n;
      NumberFound(plan, i);
    }
    if n in ByNumber(plan) {
      FoundPlanned(plan, n, Id([], []));
      var i :| 0 <= i < |plan| && plan[i] == ByNumber(plan)[n];
      assert plan[i].sequence == n;
    }
  }

  ghost predicate OnlyKnown(plan: seq<Case>, numbers: set<int>) {
    forall n :: n in numbers ==> Numbers(plan, n)
  }

  lemma {:induction false} KnownIffFound(plan: seq<Case>, numbers: set<int>)
    requires DistinctNumbers(plan)
    ensures OnlyKnown(plan, numbers) <==> numbers <= ByNumber(plan).Keys
  {
    if OnlyKnown(plan, numbers) {
      forall n | n in numbers ensures n in ByNumber(plan).Keys {
        NumbersIffFound(plan, n);
      }
    }
    if numbers <= ByNumber(plan).Keys {
      forall n | n in numbers ensures Numbers(plan, n) {
        assert n in ByNumber(plan).Keys;
        NumbersIffFound(plan, n);
      }
    }
  }

  function Lookup(plan: seq<Case>, e: Event): Option<Case> {
    if e.sequence.Some? && e.sequence.value in ByNumber(plan) then Some(ByNumber(plan)[e.sequence.value])
    else if IdOf(e) in ById(plan) then Some(ById(plan)[IdOf(e)])
    else None
  }

  /** Looking up the number first and the identity otherwise finds exactly the case the event points to. */
  lemma {:induction false} LookupIsPoints(plan: seq<Case>, e: Event, c: Case)
    requires DistinctNumbers(plan) && c in plan
    ensures Points(plan, e, c) <==> Lookup(plan, e) == Some(c)
  {
    var i :| 0 <= i < |plan| && plan[i] == c;
    NumberFound(plan, i);
    if e.sequence.Some? {
      NumbersIffFound(plan, e.sequence.value);
      FoundPlanned(plan, e.sequence.value, IdOf(e));
    }
  }

  lemma {:induction false} LookupPlanned(plan: seq<Case>, e: Event)
    ensures Lookup(plan, e).Some? ==> Lookup(plan, e).value in plan
  {
    FoundPlanned(plan, if e.sequence.Some? then e.sequence.value else 0, IdOf(e));
  }

  /** The case an event points to, if any. */
  method Resolve(plan: seq<Case>, byNumber: map<int, Case>, byId: map<Id, Case>, e: Event) returns (to: Option<Case>)
    requires DistinctNumbers(plan) && byNumber == ByNumber(plan) && byId == ById(plan)
    ensures to.Some? ==> to.value in plan
    ensures forall c :: c in plan ==> (Points(plan, e, c) <==> to == Some(c))
  {
    if e.sequence.Some? && e.sequence.value in byNumber {
      to := Some(byNumber[e.sequence.value]);
    } else {
      var id := IdOf(e);
      to := if id in byId then Some(byId[id]) else None;
    }
    LookupPlanned(plan, e);
    forall c | c in plan ensures Points(plan, e, c) <==> to == Some(c) {
      LookupIsPoints(plan, e, c);
    }
  }

  lemma JournalOneMore(plan: seq<Case>, events: seq<Event>, e: Event, to: Option<Case>)
    requires (to.Some? ==> to.value in plan) && forall c :: c in plan ==> (Points(plan, e, c) <==> to == Some(c))
    ensures JournalOk(plan, events + [e]) <==> JournalOk(plan, events) && (to.Some? ==> !Misnamed(e, to.value))
  {
    var all := events + [e];
    assert forall x :: x in all <==> x in events || x == e;
    if JournalOk(plan, all) {
      assert e in all;
    }
  }

  /** An empty list for every planned case. */
  function NoEvents(plan: seq<Case>): map<int, seq<Event>> {
    if plan == [] then map[] else NoEvents(plan[..|plan| - 1])[plan[|plan| - 1].sequence := []]
  }

  lemma {:induction false} SortNothing(plan: seq<Case>)
    ensures forall c :: c in plan ==> c.sequence in NoEvents(plan) && NoEvents(plan)[c.sequence] == []
    ensures Sorted(plan, [], NoEvents(plan)) && JournalOk(plan, [])
  {
    if plan != [] {
      SortNothing(plan[..|plan| - 1]);
      assert plan == plan[..|plan| - 1] + [plan[|plan| - 1]];
      forall c | c in plan ensures c.sequence in NoEvents(plan) && NoEvents(plan)[c.sequence] == [] {
        assert c in plan[..|plan| - 1] || c == plan[|plan| - 1];
      }
    }
  }

  /** Filing one event with its case. */
  method FileEvent(plan: seq<Case>, byNumber: map<int, Case>, byId: map<Id, Case>, ghost events: seq<Event>, e: Event,
                   byCase: map<int, seq<Event>>)
      returns (ok: bool, byCase': map<int, seq<Event>>)
    requires DistinctNumbers(plan) && byNumber == ByNumber(plan) && byId == ById(plan)
    requires JournalOk(plan, events) && Sorted(plan, events, byCase)
    ensures ok <==> JournalOk(plan, events + [e])
    ensures ok ==> Sorted(plan, events + [e], byCase')
  {
    var to := Resolve(plan, byNumber, byId, e);
    JournalOneMore(plan, events, e, to);
    SortOneMore(plan, events, byCase, e, to);
    byCase' := byCase;
    if to.Some? {
      if Misnamed(e, to.value) {
        return false, byCase;
      }
      byCase' := byCase[to.value.sequence := byCase[to.value.sequence] + [e]];
    }
    ok := true;
  }

  /** Sorting the journal's events by the case they belong to. */
  method SortEvents(plan: seq<Case>, events: seq<Event>) returns (ok: bool, byCase: map<int, seq<Event>>)
    requires DistinctNumbers(plan)
    ensures ok <==> JournalOk(plan, events)
    ensures ok ==> Sorted(plan, events, byCase)
  {
    var byNumber, byId := ByNumber(plan), ById(plan);
    byCase := NoEvents(plan);
    SortNothing(plan);
    for i := 0 to |events|
      invariant JournalOk(plan, events[..i]) && Sorted(plan, events[..i], byCase)
    {
      assert events[..i] + [events[i]] == events[..i + 1];
      ok, byCase := FileEvent(plan, byNumber, byId, events[..i], events[i], byCase);
      if !ok {
        return;
      }
    }
    assert events[..|events|] == events;
    ok := true;
  }

  ghost predicate Verdicts(plan: seq<Case>, events: seq<Event>, outputs: set<int>, sealed_: set<int>,
                           rows: seq<Verdict>)
  {
    |rows| == |plan| && forall i :: 0 <= i < |plan| ==>
        rows[i] == Verdict(plan[i], StateOf(plan, events, outputs, sealed_, plan[i]))
  }

  /** The verdicts over a table of cases. */
  method ClassifyTable(plan: seq<Case>, events: seq<Event>, outputs: set<int>, sealed_: set<int>)
      returns (r: Result<seq<Verdict>, string>)
    requires DistinctNumbers(plan)
    ensures r.Ok? <==> OnlyKnown(plan, outputs) && OnlyKnown(plan, sealed_) && JournalOk(plan, events)
    ensures r.Ok? ==> Verdicts(plan, events, outputs, sealed_, r.value)
  {
    var known := ByNumber(plan).Keys;
    KnownIffFound(plan, outputs);
    KnownIffFound(plan, sealed_);
    if !(outputs <= known && sealed_ <= known) {
      return Err("recovery artifacts contain an unknown method-case sequence");
    }
    var ok, byCase := SortEvents(plan, events);
    if !ok {
      return Err("journal identity does not match the frozen execution plan");
    }
    var rows: seq<Verdict> := [];
    for i := 0 to |plan|
      invariant |rows| == i
      invariant forall k :: 0 <= k < i ==> rows[k] == Verdict(plan[k], StateOf(plan, events, outputs, sealed_, plan[k]))
    {
      var c := plan[i];
      var mine := byCase[c.sequence];
      var state := Classify(HasKind(mine, Started), HasKind(mine, Completed), HasKind(mine, AttemptStarted),
                            c.sequence in outputs, c.sequence in sealed_);
      rows := rows + [Verdict(c, state)];
    }
    return Ok(rows);
  }

  /** One verdict for each planned number, in the plan's order, unless a file or an event fits no case. */
  method ClassifyRecovery(plan: seq<Case>, events: seq<Event>, outputs: set<int>, sealed_: set<int>)
      returns (r: Result<seq<Verdict>, string>)
    ensures r.Ok? <==> OnlyKnown(plan, outputs) && OnlyKnown(plan, sealed_) && JournalOk(Entries(plan), events)
    ensures r.Ok? ==> Verdicts(Entries(plan), events, outputs, sealed_, r.value)
  {
    var table: seq<Case> := [];
    for i := 0 to |plan|
      invariant table == Entries(plan[..i])
    {
      assert plan[..i + 1][..i] == plan[..i];
      table := Put(table, plan[i]);
    }
    assert plan[..|plan|] == plan;
    EntriesDistinct(plan);
    assert OnlyKnown(plan, outputs) <==> OnlyKnown(table, outputs);
    assert OnlyKnown(plan, sealed_) <==> OnlyKnown(table, sealed_);
    r := ClassifyTable(table, events, outputs, sealed_);
  }

  /** The order of the journal's events makes no difference. */
  lemma OrderIrrelevant(plan: seq<Case>, events: seq<Event>, shuffled: seq<Event>, outputs: set<int>, sealed_: set<int>,
                        c: Case)
    requires multiset(events) == multiset(shuffled)
    ensures JournalOk(plan, events) <==> JournalOk(plan, shuffled)
    ensures StateOf(plan, events, outputs, sealed_, c) == StateOf(plan, shuffled, outputs, sealed_, c)
  {
    forall e ensures e in events <==> e in shuffled {
      assert e in events <==> e in multiset(events);
      assert e in shuffled <==> e in multiset(shuffled);
    }
    SameEvents(plan, events, shuffled, c);
    SameEvents(plan, shuffled, events, c);
  }

  lemma SameEvents(plan: seq<Case>, events: seq<Event>, others: seq<Event>, c: Case)
    requires forall e :: e in events ==> e in others
    ensures forall kind :: Has(plan, events, c, kind) ==> Has(plan, others, c, kind)
  {
    forall kind | Has(plan, events, c, kind) ensures Has(plan, others, c, kind) {
      var i :| 0 <= i < |events| && events[i].kind == kind && Points(plan, events[i], c);
      assert events[i] in others;
    }
  }

  // ----- The order in which a run writes

  datatype Progress = Nothing | Begun | Attempted | Persisted | Finished | Sealed

  /** Everything written so far, and how far each case has come. */
  datatype World = World(progress: map<int, Progress>, events: seq<Event>, outputs: set<int>, sealed_: set<int>)

  /** An event about a case: by its number, by its identity, or both. */
  predicate Names(plan: seq<Case>, e: Event, c: Case) {
    && Points(plan, e, c) && !Misnamed(e, c)
  }

  datatype Write = Journal(c: Case, e: Event) | Output(c: Case) | Seal(c: Case)

  /** A case may start, then attempt (more than once), then write its output, complete, and be sealed. */
  predicate Allowed(plan: seq<Case>, w: World, x: Write) {
    && x.c in plan && x.c.sequence in w.progress
    && var p := w.progress[x.c.sequence];
      match x
      case Journal(c, e) =>
        && Names(plan, e, c)
        && (match e.kind
            case Started => p == Nothing || p == Begun
            case AttemptStarted => p == Begun || p == Attempted
            case Completed => p == Persisted
            case OtherKind => true)
      case Output(c) => p == Attempted
      case Seal(c) => p == Finished
  }

  function After(x: Write, p: Progress): Progress {
    match x
    case Journal(c, e) =>
      (match e.kind
       case Started => Begun
       case AttemptStarted => Attempted
       case Completed => Finished
       case OtherKind => p)
    case Output(c) => Persisted
    case Seal(c) => Sealed
  }

  function Written(w: World, x: Write): World
    requires x.c.sequence in w.progress
  {
    var n := x.c.sequence;
    var w' := w.(progress := w.progress[n := After(x, w.progress[n])]);
    match x
    case Journal(c, e) => w'.(events := w.events + [e])
    case Output(c) => w'.(outputs := w.outputs + {n})
    case Seal(c) => w'.(sealed_ := w.sealed_ + {n})
  }

  function Fresh(plan: seq<Case>): World {
    World(map n | n in ByNumber(plan) :: Nothing, [], {}, {})
  }

  /** Cases interleave freely, each in its own order; a crash is simply the end of the writes. */
  function Reached(plan: seq<Case>, xs: seq<Write>): Option<World> {
    if xs == [] then Some(Fresh(plan))
    else
      var before, x := Reached(plan, xs[..|xs| - 1]), xs[|xs| - 1];
      if before.None? || !Allowed(plan, before.value, x) then None else Some(Written(before.value, x))
  }

  /** What is on disk about one case tells exactly how far it came. */
  ghost predicate Agrees(plan: seq<Case>, w: World, c: Case) {
    && c.sequence in w.progress
    && var p := w.progress[c.sequence];
      && (Has(plan, w.events, c, Started) <==> p != Nothing)
      && (Has(plan, w.events, c, AttemptStarted) <==> p != Nothing && p != Begun)
      && (Has(plan, w.events, c, Completed) <==> p == Finished || p == Sealed)
      && (c.sequence in w.outputs <==> p == Persisted || p == Finished || p == Sealed)
      && (c.sequence in w.sealed_ <==> p == Sealed)
  }

  ghost predicate AllAgree(plan: seq<Case>, w: World) {
    && (forall c :: c in plan ==> Agrees(plan, w, c))
    && JournalOk(plan, w.events) && OnlyKnown(plan, w.outputs) && OnlyKnown(plan, w.sealed_)
  }

  function Expected(p: Progress): RecoveryState {
    match p
    case Nothing => UNSTARTED
    case Begun => SAFE_TO_RESUME
    case Attempted => UNKNOWN_PROVIDER_OUTCOME
    case Persisted => OUTPUT_PERSISTED_PENDING_COMPLETION
    case Finished => SCORE_PENDING
    case Sealed => SEALED
  }

  lemma OtherCaseAgrees(plan: seq<Case>, w: World, x: Write, c: Case)
    requires DistinctNumbers(plan) && c in plan && Agrees(plan, w, c) && Allowed(plan, w, x) && x.c != c
    ensures Agrees(plan, Written(w, x), c)
  {
    if x.c.sequence == c.sequence {
      SameNumberSameCase(plan, x.c, c);
    }
    if x.Journal? {
      if Points(plan, x.e, c) {
        PointsToOne(plan, x.e, x.c, c);
      }
      forall kind ensures Has(plan, w.events + [x.e], c, kind) == Has(plan, w.events, c, kind) {
        HasOneMore(plan, w.events, x.e, c, kind);
      }
    }
  }

  lemma SameCaseAgrees(plan: seq<Case>, w: World, x: Write)
    requires Agrees(plan, w, x.c) && Allowed(plan, w, x)
    ensures Agrees(plan, Written(w, x), x.c)
  {
    if x.Journal? {
      forall kind
        ensures Has(plan, w.events + [x.e], x.c, kind) == (Has(plan, w.events, x.c, kind) || x.e.kind == kind)
      {
        HasOneMore(plan, w.events, x.e, x.c, kind);
      }
    }
  }

  lemma JournalStaysOk(plan: seq<Case>, events: seq<Event>, e: Event, c: Case)
    requires DistinctNumbers(plan) && JournalOk(plan, events) && c in plan && Names(plan, e, c)
    ensures JournalOk(plan, events + [e])
  {
    forall x, d | x in events + [e] && d in plan && Points(plan, x, d) ensures !Misnamed(x, d) {
      if x !in events {
        PointsToOne(plan, e, c, d);
      }
    }
  }

  lemma WriteAgrees(plan: seq<Case>, w: World, x: Write)
    requires DistinctNumbers(plan) && AllAgree(plan, w) && Allowed(plan, w, x)
    ensures AllAgree(plan, Written(w, x))
  {
    forall c | c in plan ensures Agrees(plan, Written(w, x), c) {
      if c == x.c {
        SameCaseAgrees(plan, w, x);
      } else {
        OtherCaseAgrees(plan, w, x, c);
      }
    }
    if x.Journal? {
      JournalStaysOk(plan, w.events, x.e, x.c);
    }
    assert Numbers(plan, x.c.sequence);
  }

  lemma {:induction false} ReachedAgrees(plan: seq<Case>, xs: seq<Write>)
    requires DistinctNumbers(plan) && Reached(plan, xs).Some?
    ensures AllAgree(plan, Reached(plan, xs).value)
  {
    if xs == [] {
      forall c | c in plan ensures Agrees(plan, Fresh(plan), c) {
        var i :| 0 <= i < |plan| && plan[i] == c;
        NumberFound(plan, i);
      }
    } else {
      ReachedAgrees(plan, xs[..|xs| - 1]);
      WriteAgrees(plan, Reached(plan, xs[..|xs| - 1]).value, xs[|xs| - 1]);
    }
  }

  /** After any interleaving and any crash, every case is classified by how far it came; none is corrupt. */
  lemma {:induction false} CrashIsClassified(plan: seq<Case>, xs: seq<Write>, w: World, c: Case)
    requires DistinctNumbers(plan) && Reached(plan, xs) == Some(w) && c in plan
    ensures JournalOk(plan, w.events) && OnlyKnown(plan, w.outputs) && OnlyKnown(plan, w.sealed_)
    ensures c.sequence in w.progress
            && StateOf(plan, w.events, w.outputs, w.sealed_, c) == Expected(w.progress[c.sequence])
    ensures StateOf(plan, w.events, w.outputs, w.sealed_, c) != CORRUPT
  {
    ReachedAgrees(plan, xs);
    assert Agrees(plan, w, c);
  }

  /** So the verdicts over the plan are, in its order, how far each case came. */
  lemma {:induction false} CrashVerdicts(plan: seq<Case>, xs: seq<Write>, w: World, rows: seq<Verdict>)
    requires DistinctNumbers(plan) && Reached(plan, xs) == Some(w)
    requires Verdicts(plan, w.events, w.outputs, w.sealed_, rows)
    ensures |rows| == |plan|
    ensures forall i :: 0 <= i < |plan| ==>
              plan[i].sequence in w.progress && rows[i] == Verdict(plan[i], Expected(w.progress[plan[i].sequence]))
  {
    forall i | 0 <= i < |plan|
      ensures plan[i].sequence in w.progress && rows[i] == Verdict(plan[i], Expected(w.progress[plan[i].sequence]))
    {
      CrashIsClassified(plan, xs, w, plan[i]);
    }
  }

  function Said(c: Case, kind: Kind): Write {
    Journal(c, Event(kind, Some(c.sequence), None, None))
  }

  /** What is written of a case that starts twice, notes something else, attempts twice and then runs to its seal. */
  function Nth(c: Case, n: nat): Write {
    if n < 2 then Said(c, Started)
    else if n == 2 then Said(c, OtherKind)
    else if n < 5 then Said(c, AttemptStarted)
    else if n == 5 then Output(c)
    else if n == 6 then Said(c, Completed)
    else Seal(c)
  }

  function FirstWrites(c: Case, n: nat): seq<Write> {
    if n == 0 then [] else FirstWrites(c, n - 1) + [Nth(c, n - 1)]
  }

  function FarAfter(n: nat): Progress {
    if n == 0 then Nothing
    else if n < 4 then Begun
    else if n < 6 then Attempted
    else if n == 6 then Persisted
    else if n == 7 then Finished
    else Progress.Sealed
  }

  lemma NextWrite(plan: seq<Case>, c: Case, n: nat, w: World)
    requires c in plan && n < 8 && c.sequence in w.progress && w.progress[c.sequence] == FarAfter(n)
    ensures Allowed(plan, w, Nth(c, n)) && After(Nth(c, n), FarAfter(n)) == FarAfter(n + 1)
  {
    assert Numbers(plan, c.sequence);
  }

  /** Each case can come as far as each answer but corrupt says, also after being started and attempted again. */
  lemma {:induction false} EveryAnswerHappens(plan: seq<Case>, c: Case, n: nat)
    requires DistinctNumbers(plan) && c in plan && n <= 8
    ensures Reached(plan, FirstWrites(c, n)).Some?
    ensures var w := Reached(plan, FirstWrites(c, n)).value;
            c.sequence in w.progress && w.progress[c.sequence] == FarAfter(n)
  {
    if n == 0 {
      var i :| 0 <= i < |plan| && plan[i] == c;
      NumberFound(plan, i);
    } else {
      EveryAnswerHappens(plan, c, n - 1);
      NextWrite(plan, c, n - 1, Reached(plan, FirstWrites(c, n - 1)).value);
      WritesSoFar(c, n - 1);
      assert FirstWrites(c, n)[..n - 1] == FirstWrites(c, n - 1);
    }
  }

  lemma {:induction false} WritesSoFar(c: Case, n: nat)
    ensures |FirstWrites(c, n)| == n
  {
    if n > 0 {
      WritesSoFar(c, n - 1);
    }
  }

  /**
   What the answers mean. Sealed means sealed. Short of that, corrupt is exactly an output without a start or a
   completion without an output; and each other answer is exactly the furthest step on record.
   */
  lemma StateTells(plan: seq<Case>, events: seq<Event>, outputs: set<int>, sealed_: set<int>, c: Case)
    ensures var s, isSealed, output := StateOf(plan, events, outputs, sealed_, c), c.sequence in sealed_,
                                       c.sequence in outputs;
            var isStarted, attempted, completed := Has(plan, events, c, Started), Has(plan, events, c, AttemptStarted),
                                                   Has(plan, events, c, Completed);
            && (s == SEALED <==> isSealed)
            && (s == CORRUPT <==> !isSealed && ((output && !isStarted) || (completed && !output)))
            && (s == SCORE_PENDING <==> !isSealed && output && isStarted && completed)
            && (s == OUTPUT_PERSISTED_PENDING_COMPLETION <==> !isSealed && output && isStarted && !completed)
            && (s == UNKNOWN_PROVIDER_OUTCOME <==> !isSealed && !output && !completed && attempted)
            && (s == SAFE_TO_RESUME <==> !isSealed && !output && !completed && !attempted && isStarted)
            && (s == UNSTARTED <==> !isSealed && !output && !completed && !attempted && !isStarted)
  {
  }

  /** A case that counts as unstarted or safe to resume has no provider attempt on record, whatever the files say. */
  lemma SafeHasNoAttempt(plan: seq<Case>, events: seq<Event>, outputs: set<int>, sealed_: set<int>, c: Case)
    requires var s := StateOf(plan, events, outputs, sealed_, c); s == UNSTARTED || s == SAFE_TO_RESUME
    ensures !Has(plan, events, c, AttemptStarted) && !Has(plan, events, c, Completed)
    ensures c.sequence !in outputs && c.sequence !in sealed_
  {
  }
}
