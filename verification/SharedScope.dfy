/**
 Extraction scopes over the shared ledger. Every thread has at most one scope of its own and reserves only for the
 sample of that scope; a scope opens only for a sample without any row; results are saved by a thread outside any scope.
 Threads interleave as they like.
 */
module SharedScope {
  import opened Basics
  import opened SharedLedger
  import opened SharedRuns

  type Thread = nat

  datatype Sample = Sample(ns: string, id: string)

  /** The scopes end with the process. */
  datatype Session = Session(world: World, scopes: map<Thread, Sample>)

  datatype ScopedEvent =
    | Begin(thread: Thread, sample: Sample)     // the thread passes the guard on prior results
    | End(thread: Thread)
    | Ledgered(thread: Thread, event: Event)

  /** A reservation needs its own sample's scope in its own thread; a result is saved by a thread without a scope. */
  predicate ScopeAllows(scopes: map<Thread, Sample>, thread: Thread, op: Op) {
    && (op.Reserve? ==> thread in scopes && scopes[thread] == Sample(op.ns, op.sample))
    && (op.SaveResult? ==> thread !in scopes)
  }

  ghost predicate ScopedNext(allowed: Approved, s: Session, event: ScopedEvent, s': Session) {
    match event
    case Begin(thread, sample) =>
      && thread !in s.scopes && s.world.memory.Some?
      && PriorResult(allowed, s.world.files, s.world.memory.value, sample.ns, sample.id) == Ok(None)
      && s' == s.(scopes := s.scopes[thread := sample])
    case End(thread) => s' == s.(scopes := s.scopes - {thread})
    case Ledgered(thread, e) =>
      && Next(allowed, s.world, e, s'.world)
      && (e.Do? ==> ScopeAllows(s.scopes, thread, e.op))
      && s'.scopes == if s'.world.memory.None? then map[] else s.scopes
  }

  ghost predicate ScopedRun(allowed: Approved, sessions: seq<Session>, events: seq<ScopedEvent>) {
    && |sessions| == |events| + 1
    && sessions[0] == Session(INITIAL, map[])
    && forall i :: 0 <= i < |events| ==> ScopedNext(allowed, sessions[i], events[i], sessions[i + 1])
  }

  predicate InScopeOf(s: Session, thread: Thread, sample: Sample) {
    thread in s.scopes && s.scopes[thread] == sample
  }

  /** Some thread has the sample's scope open. */
  ghost predicate ScopeOpen(s: Session, sample: Sample) {
    exists t :: InScopeOf(s, t, sample)
  }

  predicate Saves(event: ScopedEvent, sample: Sample) {
    event.Ledgered? && event.event.Do? && event.event.op.SaveResult?
    && Sample(event.event.op.ns, event.event.op.sample) == sample
  }

  /** Nobody saves a result of the sample while a thread, the same or another, has the sample's scope open. */
  ghost predicate SavedAlone(sessions: seq<Session>, events: seq<ScopedEvent>, sample: Sample)
    requires |sessions| == |events| + 1
  {
    forall k :: 0 <= k < |events| && Saves(events[k], sample) ==> !ScopeOpen(sessions[k], sample)
  }

  // ----- What every thread keeps of the rows

  predicate NoResultFor(entries: seq<Row>, sample: Sample) {
    forall i :: 0 <= i < |entries| && ForSample(entries[i], sample.ns, sample.id) ==> entries[i].result.None?
  }

  /** No row is dropped or renamed, and none loses its result. */
  predicate Extends(entries: seq<Row>, entries': seq<Row>) {
    && |entries| <= |entries'|
    && forall i :: 0 <= i < |entries| ==>
         entries'[i].key == entries[i].key && (entries[i].result.Some? ==> entries'[i].result.Some?)
  }

  /** The ledger in memory has the saved rows and their results. */
  ghost predicate ScopedInv(allowed: Approved, s: Session) {
    && Inv(allowed, s.world)
    && (s.world.memory.Some? ==> Extends(s.world.disk.value.entries, s.world.memory.value.entries))
    && (s.world.memory.None? ==> s.scopes == map[])
  }

  /** Operations other than saving a result keep every result, and a new row has none. */
  lemma PerformKeepsResults(allowed: Approved, op: Op, files: Files, l: Ledger)
    requires Sound(allowed, files, l) && !op.SaveResult?
    ensures var l' := Perform(allowed, op, files, l).ledger;
            && |l.entries| <= |l'.entries| <= |l.entries| + (if op.Reserve? then 1 else 0)
            && (forall i :: 0 <= i < |l.entries| ==>
                  l'.entries[i].key == l.entries[i].key && l'.entries[i].result == l.entries[i].result)
            && (|l'.entries| > |l.entries| ==>
                  Last(l').result.None? && Last(l').key.ns == op.ns && Last(l').key.sample == op.sample)
  {
    if op.Reserve? {
      ReserveRows(allowed, op, files, l);
    } else {
      TouchRows(allowed, op, files, l);
    }
  }

  lemma SavingExtends(allowed: Approved, op: Op, files: Files, l: Ledger)
    requires op.SaveResult?
    ensures var l' := SaveResultEffect(allowed, op, files, l).ledger;
            Extends(l.entries, l'.entries) && |l'.entries| == |l.entries|
  {
  }

  lemma PerformExtends(allowed: Approved, op: Op, files: Files, l: Ledger)
    requires Sound(allowed, files, l)
    ensures var l' := Perform(allowed, op, files, l).ledger;
            && Extends(l.entries, l'.entries)
            && (forall r :: |l.entries| <= r < |l'.entries| ==>
                  op.Reserve? && ForSample(l'.entries[r], op.ns, op.sample))
  {
    if op.SaveResult? {
      SavingExtends(allowed, op, files, l);
    } else {
      PerformKeepsResults(allowed, op, files, l);
    }
  }

  lemma AttemptExtends(allowed: Approved, op: Op, fault: Fault, files: Files, l: Ledger)
    requires Sound(allowed, files, l)
    ensures var l' := Attempt(allowed, op, fault, files, l).effect.ledger;
            && Extends(l.entries, l'.entries)
            && (forall r :: |l.entries| <= r < |l'.entries| ==>
                  op.Reserve? && ForSample(l'.entries[r], op.ns, op.sample))
  {
    PerformExtends(allowed, op, files, l);
    AttemptCases(allowed, op, fault, files, l);
  }

  lemma DoSaves(allowed: Approved, w: World, e: Event, w': World)
    requires Next(allowed, w, e, w') && e.Do?
    ensures w.memory.Some? && w'.memory.Some? && (w'.disk == w.disk || w'.disk == w'.memory)
  {
  }

  lemma DoExtends(allowed: Approved, w: World, e: Event, w': World)
    requires Inv(allowed, w) && Next(allowed, w, e, w') && e.Do?
    ensures w.memory.Some? && w'.memory.Some? && Extends(w.memory.value.entries, w'.memory.value.entries)
  {
    AttemptExtends(allowed, e.op, e.fault, w.files, w.memory.value);
  }

  lemma ExtendsInTurn(a: seq<Row>, b: seq<Row>, c: seq<Row>)
    requires Extends(a, b) && Extends(b, c)
    ensures Extends(a, c)
  {
  }

  lemma DoKeepsScopedInv(allowed: Approved, s: Session, thread: Thread, e: Event, s': Session)
    requires ScopedInv(allowed, s) && ScopedNext(allowed, s, Ledgered(thread, e), s') && e.Do?
    ensures ScopedInv(allowed, s') && s.world.disk.Some? && s'.world.disk.Some?
            && Extends(s.world.disk.value.entries, s'.world.disk.value.entries)
  {
    var w, w' := s.world, s'.world;
    StepKeepsInv(allowed, w, e, w');
    DoSaves(allowed, w, e, w');
    DoExtends(allowed, w, e, w');
    ExtendsInTurn(w.disk.value.entries, w.memory.value.entries, w'.memory.value.entries);
  }

  lemma ScopedStepKeepsInv(allowed: Approved, s: Session, event: ScopedEvent, s': Session)
    requires ScopedInv(allowed, s) && ScopedNext(allowed, s, event, s')
    ensures ScopedInv(allowed, s')
  {
    if event.Ledgered? {
      if event.event.Do? {
        DoKeepsScopedInv(allowed, s, event.thread, event.event, s');
      } else {
        StepKeepsInv(allowed, s.world, event.event, s'.world);
      }
    }
  }

  lemma {:induction false} ScopedRunKeepsInv(allowed: Approved, sessions: seq<Session>, events: seq<ScopedEvent>,
                                             i: nat)
    requires ScopedRun(allowed, sessions, events) && i < |sessions|
    ensures ScopedInv(allowed, sessions[i])
  {
    if i > 0 {
      ScopedRunKeepsInv(allowed, sessions, events, i - 1);
      ScopedStepKeepsInv(allowed, sessions[i - 1], events[i - 1], sessions[i]);
    }
  }

  // ----- A late request

  ghost predicate HasSavedRow(s: Session, sample: Sample) {
    s.world.disk.Some? && HasRow(s.world.disk.value.entries, sample.ns, sample.id)
  }

  lemma RowsStay(entries: seq<Row>, entries': seq<Row>, sample: Sample)
    requires Extends(entries, entries')
    ensures HasRow(entries, sample.ns, sample.id) ==> HasRow(entries', sample.ns, sample.id)
  {
    if HasRow(entries, sample.ns, sample.id) {
      var i :| 0 <= i < |entries| && ForSample(entries[i], sample.ns, sample.id);
      assert ForSample(entries'[i], sample.ns, sample.id);
    }
  }

  lemma DiskExtends(allowed: Approved, s: Session, event: ScopedEvent, s': Session)
    requires ScopedInv(allowed, s) && ScopedNext(allowed, s, event, s') && s.world.disk.Some?
    ensures s'.world.disk.Some? && Extends(s.world.disk.value.entries, s'.world.disk.value.entries)
  {
    if event.Ledgered? && event.event.Do? {
      DoKeepsScopedInv(allowed, s, event.thread, event.event, s');
    }
  }

  lemma GuardRefuses(allowed: Approved, files: Files, l: Ledger, saved: seq<Row>, sample: Sample)
    requires Extends(saved, l.entries) && HasRow(saved, sample.ns, sample.id)
    ensures PriorResult(allowed, files, l, sample.ns, sample.id) != Ok(None)
  {
    RowsStay(saved, l.entries, sample);
  }

  /** Once a sample has a saved row, no thread passes the guard for it any more. */
  lemma NoScopeAfterRow(allowed: Approved, s: Session, event: ScopedEvent, s': Session, sample: Sample)
    requires ScopedInv(allowed, s) && ScopedNext(allowed, s, event, s') && HasSavedRow(s, sample)
    ensures HasSavedRow(s', sample) && forall t :: InScopeOf(s', t, sample) ==> InScopeOf(s, t, sample)
  {
    DiskExtends(allowed, s, event, s');
    RowsStay(s.world.disk.value.entries, s'.world.disk.value.entries, sample);
    if event.Begin? {
      GuardRefuses(allowed, s.world.files, s.world.memory.value, s.world.disk.value.entries, sample);
    }
  }

  lemma ScopesCloseInRun(
      allowed: Approved, sessions: seq<Session>, events: seq<ScopedEvent>, j: nat, sample: Sample)
    requires ScopedRun(allowed, sessions, events) && 0 < j < |sessions| && HasSavedRow(sessions[j - 1], sample)
    ensures HasSavedRow(sessions[j], sample)
            && forall t :: InScopeOf(sessions[j], t, sample) ==> InScopeOf(sessions[j - 1], t, sample)
  {
    ScopedRunKeepsInv(allowed, sessions, events, j - 1);
    NoScopeAfterRow(allowed, sessions[j - 1], events[j - 1], sessions[j], sample);
  }

  lemma {:induction false} ScopesOnlyClose(
      allowed: Approved, sessions: seq<Session>, events: seq<ScopedEvent>, i: nat, j: nat, sample: Sample)
    requires ScopedRun(allowed, sessions, events) && i <= j < |sessions| && HasSavedRow(sessions[i], sample)
    ensures HasSavedRow(sessions[j], sample)
            && forall t :: InScopeOf(sessions[j], t, sample) ==> InScopeOf(sessions[i], t, sample)
  {
    if i < j {
      ScopesOnlyClose(allowed, sessions, events, i, j - 1, sample);
      ScopesCloseInRun(allowed, sessions, events, j, sample);
    }
  }

  /** The step adds a row of the sample to the ledger in memory. */
  predicate AddsRow(s: Session, s': Session, sample: Sample) {
    && s.world.memory.Some? && s'.world.memory.Some?
    && |s.world.memory.value.entries| < |s'.world.memory.value.entries|
    && ForSample(Last(s'.world.memory.value), sample.ns, sample.id)
  }

  lemma RowNeedsScope(allowed: Approved, s: Session, event: ScopedEvent, s': Session, sample: Sample)
    requires ScopedInv(allowed, s) && ScopedNext(allowed, s, event, s') && AddsRow(s, s', sample)
    ensures event.Ledgered? && InScopeOf(s, event.thread, sample)
  {
    if event.Ledgered? && event.event.Do? {
      var w, e := s.world, event.event;
      AttemptExtends(allowed, e.op, e.fault, w.files, w.memory.value);
    }
  }

  /**
   However threads interleave: once a row of a sample is saved, a further request for it is made only by a thread that
   had passed the guard before and still has its scope open.
   */
  lemma LateRequestNeedsOldScope(
      allowed: Approved, sessions: seq<Session>, events: seq<ScopedEvent>, i: nat, j: nat, sample: Sample)
    requires ScopedRun(allowed, sessions, events) && i <= j < |events| && HasSavedRow(sessions[i], sample)
    requires AddsRow(sessions[j], sessions[j + 1], sample)
    ensures events[j].Ledgered?
            && forall k :: i <= k <= j ==> InScopeOf(sessions[k], events[j].thread, sample)
  {
    ScopedRunKeepsInv(allowed, sessions, events, j);
    RowNeedsScope(allowed, sessions[j], events[j], sessions[j + 1], sample);
    forall k | i <= k <= j ensures InScopeOf(sessions[k], events[j].thread, sample) {
      ScopesOnlyClose(allowed, sessions, events, i, k, sample);
      ScopesOnlyClose(allowed, sessions, events, k, j, sample);
    }
  }

  // ----- Results of a sample that are saved outside its scopes

  /** The sample's rows have one result together, or none at all. */
  predicate Uniform(entries: seq<Row>, sample: Sample) {
    forall i, j :: 0 <= i < |entries| && 0 <= j < |entries| && ForSample(entries[i], sample.ns, sample.id)
                   && ForSample(entries[j], sample.ns, sample.id) ==>
                     entries[i].result == entries[j].result
  }

  /** The ledger in memory runs ahead of the saved one, but not with rows of a sample that has a saved result. */
  predicate Ahead(saved: seq<Row>, entries: seq<Row>, sample: Sample) {
    && Extends(saved, entries)
    && (!NoResultFor(saved, sample) ==>
          forall r :: |saved| <= r < |entries| ==> !ForSample(entries[r], sample.ns, sample.id))
  }

  /** What is known of the rows in memory and of one sample, whose scope may be open. */
  predicate Orderly(saved: seq<Row>, entries: seq<Row>, sample: Sample, isOpen: bool) {
    Uniform(entries, sample) && Ahead(saved, entries, sample) && (isOpen ==> NoResultFor(entries, sample))
  }

  /** The saved ledger is only ever replaced by one that was ahead of it. */
  ghost predicate DiskAhead(w: World, w': World, sample: Sample) {
    w.disk.Some? ==> w'.disk.Some? && Ahead(w.disk.value.entries, w'.disk.value.entries, sample)
  }

  ghost predicate SampleInv(s: Session, sample: Sample) {
    && (s.world.disk.Some? ==> Uniform(s.world.disk.value.entries, sample))
    && (s.world.memory.Some? && s.world.disk.Some? ==>
          Orderly(s.world.disk.value.entries, s.world.memory.value.entries, sample, ScopeOpen(s, sample)))
  }

  lemma SavingKeepsUniform(entries: seq<Row>, ns: string, id: string, file: File, sample: Sample)
    requires Uniform(entries, sample)
    ensures Uniform(WithResult(entries, ns, id, file), sample)
  {
  }

  /** A new row of the sample has no result, and neither has any other row of a sample whose scope is open. */
  lemma GrowingKeepsUniform(entries: seq<Row>, entries': seq<Row>, sample: Sample)
    requires Uniform(entries, sample) && |entries| <= |entries'| <= |entries| + 1
    requires forall i :: 0 <= i < |entries| ==>
             entries'[i].key == entries[i].key && entries'[i].result == entries[i].result
    requires |entries'| > |entries| ==> entries'[|entries|].result.None?
    requires |entries'| > |entries| && ForSample(entries'[|entries|], sample.ns, sample.id) ==>
               NoResultFor(entries, sample)
    ensures Uniform(entries', sample) && (NoResultFor(entries, sample) ==> NoResultFor(entries', sample))
  {
    forall i | 0 <= i < |entries| && ForSample(entries'[i], sample.ns, sample.id)
      ensures ForSample(entries[i], sample.ns, sample.id)
    {
    }
  }

  lemma NoResultBefore(saved: seq<Row>, entries: seq<Row>, sample: Sample)
    requires Extends(saved, entries) && NoResultFor(entries, sample)
    ensures NoResultFor(saved, sample)
  {
    forall i | 0 <= i < |saved| && ForSample(saved[i], sample.ns, sample.id) ensures saved[i].result.None? {
      assert ForSample(entries[i], sample.ns, sample.id);
    }
  }

  /** Rows of the sample are added only while its scope is open, so while no result of it is saved. */
  lemma AheadAfter(saved: seq<Row>, entries: seq<Row>, entries': seq<Row>, sample: Sample)
    requires Ahead(saved, entries, sample) && Extends(entries, entries')
    requires forall r :: |entries| <= r < |entries'| && ForSample(entries'[r], sample.ns, sample.id) ==>
               NoResultFor(saved, sample)
    ensures Ahead(saved, entries', sample)
  {
    forall r | |saved| <= r < |entries'| && !NoResultFor(saved, sample)
      ensures !ForSample(entries'[r], sample.ns, sample.id)
    {
      if r < |entries| { assert entries'[r].key == entries[r].key; }
    }
  }

  /** What the scopes allow an operation with respect to one sample. */
  predicate Allows(op: Op, sample: Sample, isOpen: bool) {
    && (op.Reserve? && Sample(op.ns, op.sample) == sample ==> isOpen)
    && (op.SaveResult? && Sample(op.ns, op.sample) == sample ==> !isOpen)
  }

  lemma PerformKeepsUniform(allowed: Approved, op: Op, files: Files, l: Ledger, sample: Sample, isOpen: bool)
    requires Sound(allowed, files, l) && Uniform(l.entries, sample) && Allows(op, sample, isOpen)
    requires isOpen ==> NoResultFor(l.entries, sample)
    ensures var l' := Perform(allowed, op, files, l).ledger;
            Uniform(l'.entries, sample) && (isOpen ==> NoResultFor(l'.entries, sample))
  {
    if op.SaveResult? {
      SavingKeepsUniform(l.entries, op.ns, op.sample,
          ResultFile(op.ns, op.sample, op.result, SequencesOf(l.entries, op.ns, op.sample)), sample);
    } else {
      PerformKeepsResults(allowed, op, files, l);
      GrowingKeepsUniform(l.entries, Perform(allowed, op, files, l).ledger.entries, sample);
    }
  }

  lemma PerformKeepsOrder(
      allowed: Approved, op: Op, files: Files, l: Ledger, saved: seq<Row>, sample: Sample, isOpen: bool)
    requires Sound(allowed, files, l) && Allows(op, sample, isOpen) && Orderly(saved, l.entries, sample, isOpen)
    ensures Orderly(saved, Perform(allowed, op, files, l).ledger.entries, sample, isOpen)
  {
    PerformKeepsUniform(allowed, op, files, l, sample, isOpen);
    PerformExtends(allowed, op, files, l);
    if isOpen {
      NoResultBefore(saved, l.entries, sample);
    }
    AheadAfter(saved, l.entries, Perform(allowed, op, files, l).ledger.entries, sample);
  }

  /** Whatever write fails: the ledger in memory is the one before or the one after the operation. */
  lemma AttemptKeepsOrder(allowed: Approved, op: Op, fault: Fault, files: Files, l: Ledger, saved: seq<Row>,
                          sample: Sample, isOpen: bool)
    requires Sound(allowed, files, l) && Allows(op, sample, isOpen) && Orderly(saved, l.entries, sample, isOpen)
    ensures Orderly(saved, Attempt(allowed, op, fault, files, l).effect.ledger.entries, sample, isOpen)
  {
    PerformKeepsOrder(allowed, op, files, l, saved, sample, isOpen);
    AttemptCases(allowed, op, fault, files, l);
  }

  /** A scope is opened by its own thread passing the guard, and by nothing else. */
  lemma ScopeOpens(allowed: Approved, s: Session, event: ScopedEvent, s': Session, sample: Sample)
    requires ScopedNext(allowed, s, event, s') && ScopeOpen(s', sample)
    ensures ScopeOpen(s, sample) || (event.Begin? && event.sample == sample)
  {
    var t :| InScopeOf(s', t, sample);
    assert (event.Begin? && event.thread == t) || InScopeOf(s, t, sample);
  }

  lemma ScopesAllow(s: Session, thread: Thread, op: Op, sample: Sample)
    requires ScopeAllows(s.scopes, thread, op)
    requires op.SaveResult? && Sample(op.ns, op.sample) == sample ==> !ScopeOpen(s, sample)
    ensures Allows(op, sample, ScopeOpen(s, sample))
  {
    if op.Reserve? && Sample(op.ns, op.sample) == sample {
      assert InScopeOf(s, thread, sample);
    }
  }

  lemma OrderlyClosed(saved: seq<Row>, entries: seq<Row>, sample: Sample, before: bool, after: bool)
    requires Orderly(saved, entries, sample, before) && (after ==> before)
    ensures Orderly(saved, entries, sample, after)
  {
  }

  lemma DoKeepsOrder(allowed: Approved, w: World, e: Event, w': World, sample: Sample, isOpen: bool)
    requires Inv(allowed, w) && Next(allowed, w, e, w') && e.Do? && Allows(e.op, sample, isOpen)
    requires Orderly(w.disk.value.entries, w.memory.value.entries, sample, isOpen)
    ensures Orderly(w.disk.value.entries, w'.memory.value.entries, sample, isOpen)
  {
    AttemptKeepsOrder(allowed, e.op, e.fault, w.files, w.memory.value, w.disk.value.entries, sample, isOpen);
  }

  lemma OrderlySaved(saved: seq<Row>, entries: seq<Row>, saved': seq<Row>, sample: Sample, isOpen: bool)
    requires Orderly(saved, entries, sample, isOpen) && Uniform(saved, sample)
    requires saved' == saved || saved' == entries
    ensures Uniform(saved', sample) && Orderly(saved', entries, sample, isOpen) && Ahead(saved, saved', sample)
  {
  }

  lemma DoKeepsSample(allowed: Approved, s: Session, thread: Thread, e: Event, s': Session, sample: Sample)
    requires ScopedInv(allowed, s) && SampleInv(s, sample) && ScopedNext(allowed, s, Ledgered(thread, e), s')
    requires e.Do? && (Saves(Ledgered(thread, e), sample) ==> !ScopeOpen(s, sample))
    ensures SampleInv(s', sample) && DiskAhead(s.world, s'.world, sample)
  {
    var w, w', isOpen := s.world, s'.world, ScopeOpen(s, sample);
    ScopesAllow(s, thread, e.op, sample);
    DoSaves(allowed, w, e, w');
    DoKeepsOrder(allowed, w, e, w', sample, isOpen);
    OrderlySaved(w.disk.value.entries, w'.memory.value.entries, w'.disk.value.entries, sample, isOpen);
    if ScopeOpen(s', sample) {
      ScopeOpens(allowed, s, Ledgered(thread, e), s', sample);
    }
    OrderlyClosed(w'.disk.value.entries, w'.memory.value.entries, sample, isOpen, ScopeOpen(s', sample));
  }

  lemma BeginKeepsSample(allowed: Approved, s: Session, event: ScopedEvent, s': Session, sample: Sample)
    requires SampleInv(s, sample) && ScopedNext(allowed, s, event, s') && event.Begin?
    ensures SampleInv(s', sample)
  {
    if ScopeOpen(s', sample) {
      ScopeOpens(allowed, s, event, s', sample);
    }
  }

  lemma SampleStep(allowed: Approved, s: Session, event: ScopedEvent, s': Session, sample: Sample)
    requires ScopedInv(allowed, s) && SampleInv(s, sample) && ScopedNext(allowed, s, event, s')
    requires Saves(event, sample) ==> !ScopeOpen(s, sample)
    ensures SampleInv(s', sample)
    ensures DiskAhead(s.world, s'.world, sample)
  {
    if event.Begin? {
      BeginKeepsSample(allowed, s, event, s', sample);
    } else if event.Ledgered? && event.event.Do? {
      DoKeepsSample(allowed, s, event.thread, event.event, s', sample);
    } else if event.Ledgered? {
      HolderKeepsSample(allowed, s, event.thread, event.event, s', sample);
    } else {
      EndKeepsSample(allowed, s, event, s', sample);
    }
  }

  lemma EndKeepsSample(allowed: Approved, s: Session, event: ScopedEvent, s': Session, sample: Sample)
    requires SampleInv(s, sample) && ScopedNext(allowed, s, event, s') && event.End?
    ensures SampleInv(s', sample)
  {
    if ScopeOpen(s', sample) {
      ScopeOpens(allowed, s, event, s', sample);
    }
  }

  /** A process takes the ledger or lets it go. */
  lemma HolderKeepsSample(allowed: Approved, s: Session, thread: Thread, e: Event, s': Session, sample: Sample)
    requires ScopedInv(allowed, s) && SampleInv(s, sample) && ScopedNext(allowed, s, Ledgered(thread, e), s')
    requires !e.Do?
    ensures SampleInv(s', sample) && DiskAhead(s.world, s'.world, sample)
  {
    assert s.world.memory.None? ==> !ScopeOpen(s', sample);
  }

  lemma {:induction false} SampleRun(
      allowed: Approved, sessions: seq<Session>, events: seq<ScopedEvent>, i: nat, sample: Sample)
    requires ScopedRun(allowed, sessions, events) && i < |sessions| && SavedAlone(sessions, events, sample)
    ensures ScopedInv(allowed, sessions[i]) && SampleInv(sessions[i], sample)
    ensures i > 0 ==> DiskAhead(sessions[i - 1].world, sessions[i].world, sample)
  {
    ScopedRunKeepsInv(allowed, sessions, events, i);
    if i > 0 {
      SampleRun(allowed, sessions, events, i - 1, sample);
      SampleStep(allowed, sessions[i - 1], events[i - 1], sessions[i], sample);
    }
  }

  // ----- Prior results

  predicate LacksResult(entries: seq<Row>, sample: Sample) {
    exists i :: 0 <= i < |entries| && ForSample(entries[i], sample.ns, sample.id) && entries[i].result.None?
  }

  /** Rows point to the one result file of their sample, so results cannot be inconsistent. */
  lemma PriorResultExact(allowed: Approved, files: Files, l: Ledger, sample: Sample)
    requires InScope(allowed, sample.ns, sample.id)
    requires forall i :: 0 <= i < |l.entries| ==> RowSound(files, l.entries[i])
    ensures var r := PriorResult(allowed, files, l, sample.ns, sample.id);
            && (r.Ok? || r == Err(NoCompleteResult))
            && (r == Ok(None) <==> !HasRow(l.entries, sample.ns, sample.id))
            && (r.Err? <==> LacksResult(l.entries, sample))
  {
  }

  lemma UniformLacks(entries: seq<Row>, sample: Sample)
    requires Uniform(entries, sample)
    ensures LacksResult(entries, sample) <==> HasRow(entries, sample.ns, sample.id) && NoResultFor(entries, sample)
  {
  }

  /**
   In the saved ledger as in the one in memory, a stored result is read back as nothing exactly when the sample has no
   row, and refused exactly when some row has no result. When its results are saved outside its scopes, that is when it
   has rows and none of them a result. Inconsistent or altered results cannot be met, however threads interleave.
   */
  lemma PriorResultCases(allowed: Approved, sessions: seq<Session>, events: seq<ScopedEvent>, i: nat, l: Ledger,
                         sample: Sample)
    requires ScopedRun(allowed, sessions, events) && i < |sessions| && InScope(allowed, sample.ns, sample.id)
    requires sessions[i].world.disk == Some(l) || sessions[i].world.memory == Some(l)
    ensures var r := PriorResult(allowed, sessions[i].world.files, l, sample.ns, sample.id);
            && (r.Ok? || r == Err(NoCompleteResult))
            && (r == Ok(None) <==> !HasRow(l.entries, sample.ns, sample.id))
            && (r.Err? <==> LacksResult(l.entries, sample))
            && (SavedAlone(sessions, events, sample) ==>
                  (r.Err? <==> HasRow(l.entries, sample.ns, sample.id) && NoResultFor(l.entries, sample)))
  {
    ScopedRunKeepsInv(allowed, sessions, events, i);
    PriorResultExact(allowed, sessions[i].world.files, l, sample);
    if SavedAlone(sessions, events, sample) {
      SampleRun(allowed, sessions, events, i, sample);
      UniformLacks(l.entries, sample);
    }
  }

  // ----- A saved result is final

  predicate HasResult(w: World, sample: Sample) {
    w.disk.Some? && !NoResultFor(w.disk.value.entries, sample)
  }

  /** The later rows have the sample's result still, and none of those added is the sample's. */
  ghost predicate Final(saved: seq<Row>, later: seq<Row>, sample: Sample) {
    && !NoResultFor(later, sample) && |saved| <= |later|
    && forall r :: |saved| <= r < |later| ==> !ForSample(later[r], sample.ns, sample.id)
  }

  lemma ResultsStay(entries: seq<Row>, entries': seq<Row>, sample: Sample)
    requires Extends(entries, entries') && !NoResultFor(entries, sample)
    ensures !NoResultFor(entries', sample)
  {
    var k :| 0 <= k < |entries| && ForSample(entries[k], sample.ns, sample.id) && entries[k].result.Some?;
    assert ForSample(entries'[k], sample.ns, sample.id) && entries'[k].result.Some?;
  }

  lemma FinalAdvances(saved: seq<Row>, later: seq<Row>, latest: seq<Row>, sample: Sample)
    requires Final(saved, later, sample) && Ahead(later, latest, sample)
    ensures Final(saved, latest, sample)
  {
    ResultsStay(later, latest, sample);
    forall r | |saved| <= r < |latest| ensures !ForSample(latest[r], sample.ns, sample.id) {
      if r < |later| { assert latest[r].key == later[r].key; }
    }
  }

  /** A ledger is saved, and beside the rows of `saved` it holds nothing new of the sample. */
  ghost predicate FinalSince(saved: seq<Row>, w: World, sample: Sample) {
    w.disk.Some? && Final(saved, w.disk.value.entries, sample)
  }

  lemma FinalStep(saved: seq<Row>, w: World, w': World, sample: Sample)
    requires FinalSince(saved, w, sample) && DiskAhead(w, w', sample)
    ensures FinalSince(saved, w', sample)
  {
    FinalAdvances(saved, w.disk.value.entries, w'.disk.value.entries, sample);
  }

  lemma AheadInRun(
      allowed: Approved, sessions: seq<Session>, events: seq<ScopedEvent>, j: nat, sample: Sample)
    requires ScopedRun(allowed, sessions, events) && 0 < j < |sessions| && SavedAlone(sessions, events, sample)
    ensures DiskAhead(sessions[j - 1].world, sessions[j].world, sample)
  {
    SampleRun(allowed, sessions, events, j, sample);
  }

  lemma FinalAtOnce(w: World, sample: Sample)
    requires HasResult(w, sample)
    ensures FinalSince(w.disk.value.entries, w, sample)
  {
  }

  /**
   Once a sample's result is saved, no thread of this or a later process ever adds another request for that sample, when
   its results are saved outside its scopes.
   */
  lemma {:induction false} ResultIsFinal(
      allowed: Approved, sessions: seq<Session>, events: seq<ScopedEvent>, i: nat, j: nat, sample: Sample)
    requires ScopedRun(allowed, sessions, events) && i <= j < |sessions| && HasResult(sessions[i].world, sample)
    requires SavedAlone(sessions, events, sample)
    ensures FinalSince(sessions[i].world.disk.value.entries, sessions[j].world, sample)
  {
    if i == j {
      FinalAtOnce(sessions[i].world, sample);
    } else {
      ResultIsFinal(allowed, sessions, events, i, j - 1, sample);
      AheadInRun(allowed, sessions, events, j, sample);
      FinalStep(sessions[i].world.disk.value.entries, sessions[j - 1].world, sessions[j].world, sample);
    }
  }

  /** One thread at a time saves alone, since it saves outside its own scope. */
  lemma OneThreadSavesAlone(allowed: Approved, sessions: seq<Session>, events: seq<ScopedEvent>, sample: Sample)
    requires ScopedRun(allowed, sessions, events)
    requires forall k :: 0 <= k < |events| && Saves(events[k], sample) ==>
               forall t :: InScopeOf(sessions[k], t, sample) ==> t == events[k].thread
    ensures SavedAlone(sessions, events, sample)
  {
    forall k | 0 <= k < |events| && Saves(events[k], sample) ensures !ScopeOpen(sessions[k], sample) {
      assert ScopedNext(allowed, sessions[k], events[k], sessions[k + 1]);
      assert !InScopeOf(sessions[k], events[k].thread, sample);
    }
  }

  // ----- The count of core requests in a completed run

  function ApprovedSamples(allowed: Approved): set<Sample> {
    set ns, id | ns in allowed && id in allowed[ns] :: Sample(ns, id)
  }

  predicate IsCore(row: Row) {
    row.key.stage.Stage1?
  }

  function CoreSamples(entries: seq<Row>): set<Sample> {
    set i | 0 <= i < |entries| && IsCore(entries[i]) :: Sample(entries[i].key.ns, entries[i].key.sample)
  }

  predicate CoreTask(row: Row) {
    IsCore(row) ==> row.key.task == "core"
  }

  lemma CoreSamplesOneMore(rest: seq<Row>, row: Row)
    ensures CoreSamples(rest + [row]) ==
            if IsCore(row) then CoreSamples(rest) + {Sample(row.key.ns, row.key.sample)} else CoreSamples(rest)
  {
    var all := rest + [row];
    assert all[|rest|] == row && forall i :: 0 <= i < |rest| ==> all[i] == rest[i];
    forall x | x in CoreSamples(rest) ensures x in CoreSamples(all) {
      var i :| 0 <= i < |rest| && IsCore(rest[i]) && Sample(rest[i].key.ns, rest[i].key.sample) == x;
      assert IsCore(all[i]);
    }
  }

  /** A second core row of a sample would have the same key. */
  lemma NewCoreSample(rest: seq<Row>, row: Row)
    requires KeysDistinct(rest + [row]) && IsCore(row)
    requires forall i :: 0 <= i <= |rest| ==> CoreTask((rest + [row])[i])
    ensures Sample(row.key.ns, row.key.sample) !in CoreSamples(rest)
  {
    var all := rest + [row];
    forall i | 0 <= i < |rest| && IsCore(rest[i])
      ensures Sample(rest[i].key.ns, rest[i].key.sample) != Sample(row.key.ns, row.key.sample)
    {
      assert all[i] == rest[i] && all[|rest|] == row && CoreTask(all[i]) && CoreTask(all[|rest|]);
      assert all[i].key != all[|rest|].key;
    }
  }

  lemma {:induction false} CoreRowsCountSamples(entries: seq<Row>)
    requires KeysDistinct(entries)
    requires forall i :: 0 <= i < |entries| ==> CoreTask(entries[i])
    ensures Count(IsCore, entries) == |CoreSamples(entries)|
  {
    if entries != [] {
      var rest, row := entries[..|entries| - 1], entries[|entries| - 1];
      assert entries == rest + [row];
      CoreRowsCountSamples(rest);
      CoreSamplesOneMore(rest, row);
      if IsCore(row) {
        NewCoreSample(rest, row);
      }
    }
  }

  /** Every approved sample reads back a saved result. */
  ghost predicate AllResultsSaved(allowed: Approved, files: Files, l: Ledger) {
    forall sample :: sample in ApprovedSamples(allowed) ==>
                       ReadsBack(PriorResult(allowed, files, l, sample.ns, sample.id))
  }

  predicate ReadsBack(r: Result<Option<File>, Error>) {
    r.Ok? && r.value.Some?
  }

  /**
   The report's last check never fails on its own: once nothing is active and every approved sample has a result,
   there is exactly one core request per approved sample, and every request is complete.
   */
  lemma CompletedRunCounts(allowed: Approved, files: Files, l: Ledger)
    requires Sound(allowed, files, l) && l.active.None? && AllResultsSaved(allowed, files, l)
    ensures Count(IsCore, l.entries) == |ApprovedSamples(allowed)|
    ensures forall i :: 0 <= i < |l.entries| ==> l.entries[i].status.Complete?
  {
    EverySampleHasCore(allowed, files, l);
    CoreSamplesApproved(allowed, l.entries);
    assert CoreSamples(l.entries) == ApprovedSamples(allowed);
    CoreRowsCountSamples(l.entries);
  }

  lemma EverySampleHasCore(allowed: Approved, files: Files, l: Ledger)
    requires ResultsHaveCore(l.entries) && AllResultsSaved(allowed, files, l)
    ensures ApprovedSamples(allowed) <= CoreSamples(l.entries)
  {
    forall sample | sample in ApprovedSamples(allowed) ensures sample in CoreSamples(l.entries) {
      SavedSampleHasCore(allowed, files, l, sample);
    }
  }

  lemma CoreSamplesApproved(allowed: Approved, entries: seq<Row>)
    requires forall i :: 0 <= i < |entries| ==> InScope(allowed, entries[i].key.ns, entries[i].key.sample)
    ensures CoreSamples(entries) <= ApprovedSamples(allowed)
  {
  }

  lemma SavedSampleHasCore(allowed: Approved, files: Files, l: Ledger, sample: Sample)
    requires ResultsHaveCore(l.entries)
    requires ReadsBack(PriorResult(allowed, files, l, sample.ns, sample.id))
    ensures sample in CoreSamples(l.entries)
  {
    var i :| 0 <= i < |l.entries| && ForSample(l.entries[i], sample.ns, sample.id);
    assert l.entries[i].result.Some?;
    assert HasCoreRow(l.entries, sample.ns, sample.id);
    var j :| 0 <= j < |l.entries| && ForSample(l.entries[j], sample.ns, sample.id) && l.entries[j].key.stage.Stage1?;
    assert Sample(l.entries[j].key.ns, l.entries[j].key.sample) == sample && IsCore(l.entries[j]);
  }

  /** With the two A/B sentences and the fixed sample of 210 messages that count is 212. */
  lemma ApprovedCount(messages: set<string>)
    requires |messages| == 210
    ensures |ApprovedSamples(map["ab" := {"A", "B"}, "es2002" := messages])| == 212
  {
    var allowed := map["ab" := {"A", "B"}, "es2002" := messages];
    var ab, es := {Sample("ab", "A"), Sample("ab", "B")}, set id | id in messages :: Sample("es2002", id);
    assert ApprovedSamples(allowed) == ab + es;
    SamplesOfNamespace("es2002", messages);
    assert |ab| == 2;
  }

  lemma {:induction false} SamplesOfNamespace(ns: string, ids: set<string>)
    ensures |set id | id in ids :: Sample(ns, id)| == |ids|
  {
    if ids != {} {
      var x :| x in ids;
      SamplesOfNamespace(ns, ids - {x});
      assert (set id | id in ids :: Sample(ns, id)) == (set id | id in ids - {x} :: Sample(ns, id)) + {Sample(ns, x)};
    }
  }
}
