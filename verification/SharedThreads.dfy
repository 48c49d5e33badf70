/**
 Two threads that both pass the guard on prior results for one sample: the second may still make a request after the
 first has saved the sample's result.
 */
module SharedThreads {
  import opened Basics
  import opened SharedLedger
  import opened SharedScope
  import R = SharedRuns
  import O = SharedOrphans
  import A = SharedAdapter

  ghost predicate Reachable(allowed: Approved, s: Session) {
    exists sessions, events :: ScopedRun(allowed, sessions, events) && sessions[|sessions| - 1] == s
  }

  lemma ReachedNext(allowed: Approved, s: Session, event: ScopedEvent, s': Session)
    requires Reachable(allowed, s) && ScopedNext(allowed, s, event, s')
    ensures Reachable(allowed, s')
  {
    var sessions, events :| ScopedRun(allowed, sessions, events) && sessions[|sessions| - 1] == s;
    assert ScopedRun(allowed, sessions + [s'], events + [event]);
  }

  /** An operation that meets no fault and sends nothing. */
  lemma ReachedDo(allowed: Approved, s: Session, thread: Thread, op: Op, w: R.World)
    requires Reachable(allowed, s) && ScopeAllows(s.scopes, thread, op)
    requires R.Next(allowed, s.world, R.Do(op, NoFault, None), w)
    ensures Reachable(allowed, Session(w, s.scopes))
  {
    ReachedNext(allowed, s, Ledgered(thread, R.Do(op, NoFault, None)), Session(w, s.scopes));
  }

  lemma ReachedEnd(allowed: Approved, s: Session, thread: Thread)
    requires Reachable(allowed, s)
    ensures Reachable(allowed, Session(s.world, s.scopes - {thread}))
  {
    ReachedNext(allowed, s, End(thread), Session(s.world, s.scopes - {thread}));
  }

  /** What an operation without a fault makes of a world, when it saves and nothing is billed for it. */
  lemma NextSaved(allowed: Approved, w: R.World, op: Op, files: Files, l: Ledger)
    requires w.memory.Some? && !op.Respond?
    requires Attempt(allowed, op, NoFault, w.files, w.memory.value) == Attempted(Effect(files, l, Done), true)
    ensures R.Next(allowed, w, R.Do(op, NoFault, None),
                w.(disk := Some(l), memory := Some(l), files := files, bill := R.Extended(w.bill, |l.entries|)))
  {
  }

  lemma LacksIsRefused(allowed: Approved, files: Files, l: Ledger, sample: Sample, i: nat)
    requires InScope(allowed, sample.ns, sample.id)
    requires i < |l.entries| && ForSample(l.entries[i], sample.ns, sample.id) && l.entries[i].result.None?
    ensures PriorResult(allowed, files, l, sample.ns, sample.id) == Err(NoCompleteResult)
  {
  }

  const SAMPLE := Sample("ab", "A")
  const BOTH: map<Thread, Sample> := map[0 := SAMPLE, 1 := SAMPLE]
  const SECOND: map<Thread, Sample> := map[1 := SAMPLE]

  const ENDED := FinishEffect(Finish("m"), A.METERED.files, A.METERED.ledger)
  const ENDED_W := A.METERED_W.(disk := Some(ENDED.ledger), memory := Some(ENDED.ledger), files := ENDED.files)

  const RESULT := SaveResult("ab", "A", "r")
  const RESULT_FILE := ResultFile("ab", "A", "r", [1])
  const KEPT_L := ENDED.ledger.(entries := WithResult(ENDED.ledger.entries, "ab", "A", RESULT_FILE))
  const KEPT_W := ENDED_W.(disk := Some(KEPT_L), memory := Some(KEPT_L),
                           files := ENDED.files[ResultPath("ab", "A") := RESULT_FILE])

  const LATE := Reserve("ab", "A", Stage2, "t", "body", 0, STAGE2_MAX_OUTPUT)
  const LATE_KEY := Key("ab", "A", Stage2, "t")
  const LATE_L := AfterReserve(KEPT_L, LATE_KEY, Reservation(0, STAGE2_MAX_OUTPUT), RequestFile(LATE_KEY, "body"))
  const LATE_W := KEPT_W.(disk := Some(LATE_L), memory := Some(LATE_L), bill := [0.0, 0.0],
                          files := KEPT_W.files[RequestPath(2) := RequestFile(LATE_KEY, "body")])

  lemma FirstEnded()
    ensures ENDED.outcome.Done? && ENDED.ledger.active.None? && ENDED.ledger.blocked.None?
    ensures |ENDED.ledger.entries| == 1 && Last(ENDED.ledger).key == Key("ab", "A", Stage1, "core")
            && Last(ENDED.ledger).sequence == 1
    ensures ENDED.ledger.requests == 1 && ENDED.ledger.charged == 0.0
    ensures ResultPath("ab", "A") !in ENDED.files && RequestPath(2) !in ENDED.files
  {
    A.FirstMetered();
    assert Cost(A.USED) == 0.0;
  }

  lemma FinishStep()
    ensures R.Next(O.SAMPLES, A.METERED_W, R.Do(Finish("m"), NoFault, None), ENDED_W)
  {
    FirstEnded();
    assert Attempt(O.SAMPLES, Finish("m"), NoFault, A.METERED.files, A.METERED.ledger) == Attempted(ENDED, true);
    assert R.Extended([0.0], 1) == [0.0];
    NextSaved(O.SAMPLES, A.METERED_W, Finish("m"), ENDED.files, ENDED.ledger);
  }

  /** Saving the result of a sample with one core row. */
  lemma ResultSaved(files: Files, l: Ledger)
    requires |l.entries| == 1 && l.entries[0].key == Key("ab", "A", Stage1, "core") && l.entries[0].sequence == 1
    requires ResultPath("ab", "A") !in files
    ensures Attempt(O.SAMPLES, RESULT, NoFault, files, l)
            == Attempted(Effect(files[ResultPath("ab", "A") := RESULT_FILE],
                                l.(entries := WithResult(l.entries, "ab", "A", RESULT_FILE)), Done), true)
  {
    assert SequencesOf(l.entries, "ab", "A") == [1];
    assert HasCoreRow(l.entries, "ab", "A");
  }

  lemma SaveStep()
    ensures R.Next(O.SAMPLES, ENDED_W, R.Do(RESULT, NoFault, None), KEPT_W)
  {
    FirstEnded();
    ResultSaved(ENDED.files, ENDED.ledger);
    assert R.Extended([0.0], 1) == [0.0];
    NextSaved(O.SAMPLES, ENDED_W, RESULT, KEPT_W.files, KEPT_L);
  }

  lemma LateReserved()
    ensures Attempt(O.SAMPLES, LATE, NoFault, KEPT_W.files, KEPT_L)
            == Attempted(Effect(LATE_W.files, LATE_L, Done), true)
  {
    FirstEnded();
    AddAttempt(O.SAMPLES, LATE, NoFault, KEPT_W.files, KEPT_L);
  }

  lemma LateStep()
    ensures R.Next(O.SAMPLES, KEPT_W, R.Do(LATE, NoFault, None), LATE_W)
  {
    FirstEnded();
    LateReserved();
    assert R.Extended([0.0], 2) == [0.0, 0.0];
    NextSaved(O.SAMPLES, KEPT_W, LATE, LATE_W.files, LATE_L);
  }

  /** Both threads pass the guard before anything is reserved. */
  lemma BothBegin()
    ensures Reachable(O.SAMPLES, Session(O.STARTED, BOTH))
  {
    assert ScopedRun(O.SAMPLES, [Session(R.INITIAL, map[])], []);
    var s, one := Session(O.STARTED, map[]), Session(O.STARTED, map[0 := SAMPLE]);
    ReachedNext(O.SAMPLES, Session(R.INITIAL, map[]), Ledgered(0, R.Open), s);
    ReachedNext(O.SAMPLES, s, Begin(0, SAMPLE), one);
    ReachedNext(O.SAMPLES, one, Begin(1, SAMPLE), Session(O.STARTED, BOTH));
  }

  lemma FirstRuns()
    ensures Reachable(O.SAMPLES, Session(ENDED_W, BOTH))
  {
    BothBegin();
    A.ReserveStep();
    ReachedDo(O.SAMPLES, Session(O.STARTED, BOTH), 0, O.FIRST, A.RESERVED_W);
    A.WireStep();
    ReachedDo(O.SAMPLES, Session(A.RESERVED_W, BOTH), 0, Wire(true), A.WIRED_W);
    A.MeterStep();
    ReachedDo(O.SAMPLES, Session(A.WIRED_W, BOTH), 0, A.ANSWERED, A.METERED_W);
    FinishStep();
    ReachedDo(O.SAMPLES, Session(A.METERED_W, BOTH), 0, Finish("m"), ENDED_W);
  }

  lemma FirstLeaves(w: R.World)
    requires Reachable(O.SAMPLES, Session(w, BOTH))
    ensures Reachable(O.SAMPLES, Session(w, SECOND))
  {
    assert BOTH - {0} == SECOND;
    ReachedEnd(O.SAMPLES, Session(w, BOTH), 0);
  }

  lemma FirstSaves()
    ensures Reachable(O.SAMPLES, Session(KEPT_W, SECOND))
  {
    FirstRuns();
    FirstLeaves(ENDED_W);
    SaveStep();
    ReachedDo(O.SAMPLES, Session(ENDED_W, SECOND), 0, RESULT, KEPT_W);
  }

  /** The sample had its result saved; after one more request by the other thread it can never be read back. */
  ghost predicate Overtaken(s: Session, s': Session, sample: Sample) {
    && HasResult(s.world, sample) && AddsRow(s, s', sample) && s'.world.disk.Some?
    && PriorResult(O.SAMPLES, s'.world.files, s'.world.disk.value, sample.ns, sample.id) == Err(NoCompleteResult)
  }

  lemma Overtakes(s: Session, s': Session, l: Ledger, l': Ledger)
    requires s.world.disk == s.world.memory == Some(l) && s'.world.disk == s'.world.memory == Some(l')
    requires |l.entries| == 1 && ForSample(l.entries[0], "ab", "A") && l.entries[0].result.Some?
    requires |l'.entries| == 2 && ForSample(l'.entries[1], "ab", "A") && l'.entries[1].result.None?
    ensures Overtaken(s, s', SAMPLE)
  {
    LacksIsRefused(O.SAMPLES, s'.world.files, l', SAMPLE, 1);
  }

  lemma LateOvertakes()
    ensures Overtaken(Session(KEPT_W, SECOND), Session(LATE_W, SECOND), SAMPLE)
  {
    FirstEnded();
    Overtakes(Session(KEPT_W, SECOND), Session(LATE_W, SECOND), KEPT_L, LATE_L);
  }

  lemma LateScoped()
    ensures ScopedNext(O.SAMPLES, Session(KEPT_W, SECOND), Ledgered(1, R.Do(LATE, NoFault, None)),
                Session(LATE_W, SECOND))
  {
    LateStep();
  }

  /** So a saved result is not final when another thread still has the sample's scope open. */
  lemma LateRequestHappens()
    ensures exists s, s', event :: Reachable(O.SAMPLES, s) && Overtaken(s, s', SAMPLE)
                                   && ScopedNext(O.SAMPLES, s, event, s')
  {
    FirstSaves();
    LateOvertakes();
    LateScoped();
  }
}
