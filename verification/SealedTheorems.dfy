/** What a sealed run promises whoever reads its directory afterwards, and the one thing it does not. */
module SealedTheorems {
  import opened Basics
  import opened SealedRun
  import opened SealedSafety

  // ----- Files are only ever added

  /** Everything in `a` is in `b`, unchanged. */
  ghost predicate Extends<K, V>(a: map<K, V>, b: map<K, V>) {
    forall k :: k in a ==> k in b && b[k] == a[k]
  }

  ghost predicate StoreExtends(a: Store, b: Store) {
    Extends(a.dir, b.dir) && Extends(a.late, b.late)
  }

  lemma ReadyOnlyAdds(s: State, e: Event)
    requires ReadyStep(s, e).Some?
    ensures StoreExtends(s.store, ReadyStep(s, e).value.store)
  {
  }

  lemma MainWriteOnlyAdds(s: State, a: Active)
    requires MainWrite(s, a).Some?
    ensures StoreExtends(s.store, MainWrite(s, a).value.store)
  {
  }

  lemma SealOnlyAdds(s: State)
    requires SealStep(s).Some?
    ensures StoreExtends(s.store, SealStep(s).value.store)
  {
  }

  lemma MainOnlyAdds(s: State, e: Event)
    requires MainStep(s, e).Some?
    ensures StoreExtends(s.store, MainStep(s, e).value.store)
    ensures s.closed ==> MainStep(s, e).value.closed
  {
    match s.main
    case Ready => ReadyOnlyAdds(s, e);
    case HoldTerminal(_, _) | HoldCutoff | HoldLast(_) => MainWriteOnlyAdds(s, s.active.value);
    case Completing | Sealing => SealOnlyAdds(s);
    case _ =>
  }

  lemma WorkerWriteOnlyAdds(s: State, a: Active)
    requires WorkerWrite(s, a).Some?
    ensures var t := WorkerWrite(s, a).value; StoreExtends(s.store, t.store) && t.closed == s.closed
  {
  }

  lemma WorkerActOnlyAdds(s: State, a: Active, e: Event)
    requires WorkerAct(s, a, e).Some?
    ensures var t := WorkerAct(s, a, e).value; t.store == s.store && t.closed == s.closed
  {
  }

  lemma WorkerOnlyAdds(s: State, e: Event)
    requires s.active.Some? && WorkerStep(s, e).Some?
    ensures var t := WorkerStep(s, e).value; StoreExtends(s.store, t.store) && t.closed == s.closed
  {
    if Writing(s.worker) {
      WorkerWriteOnlyAdds(s, s.active.value);
    } else if !Locking(s.worker) {
      WorkerActOnlyAdds(s, s.active.value, e);
    }
  }

  lemma StepOnlyAdds(s: State, m: Move)
    requires Step(s, m).Some?
    ensures StoreExtends(s.store, Step(s, m).value.store)
    ensures s.closed ==> Step(s, m).value.closed
  {
    if m.thread == MainThread {
      MainOnlyAdds(s, m.event);
    } else {
      WorkerOnlyAdds(s, m.event);
    }
  }

  /** None of these files is ever rewritten or removed, whatever happens next; a closed run stays closed. */
  lemma {:induction false} RunOnlyAdds(s: State, moves: seq<Move>)
    requires Run(s, moves).Some?
    ensures StoreExtends(s.store, Run(s, moves).value.store)
    ensures s.closed ==> Run(s, moves).value.closed
  {
    if moves != [] {
      RunOnlyAdds(s, moves[..|moves| - 1]);
      StepOnlyAdds(Run(s, moves[..|moves| - 1]).value, moves[|moves| - 1]);
    }
  }

  /** Once the run is closed the worker adds nothing to the sealed directory. */
  lemma ClosedToWorker(s: State, e: Event)
    requires s.closed && s.active.Some? && WorkerStep(s, e).Some?
    ensures WorkerStep(s, e).value.store.dir == s.store.dir
  {
  }

  lemma FinishedStep(s: State, m: Move)
    requires Safe(s) && s.main.Finished? && Step(s, m).Some?
    ensures var t := Step(s, m).value; t.main.Finished? && t.store.dir == s.store.dir
  {
    if m.thread == WorkerThread {
      ClosedToWorker(s, m.event);
    }
  }

  /** After the listing is written, the directory holds the listed files and the listing, for ever. */
  lemma {:induction false} SealHolds(s: State, moves: seq<Move>)
    requires Safe(s) && s.main.Finished? && Run(s, moves).Some?
    ensures var t := Run(s, moves).value;
            && t.main.Finished? && t.store.dir == s.store.dir
            && Listing in t.store.dir && t.store.dir[Listing] == Files(t.store.dir.Keys - {Listing})
  {
    if moves != [] {
      SealHolds(s, moves[..|moves| - 1]);
      RunIsSafe(s, moves[..|moves| - 1]);
      FinishedStep(Run(s, moves[..|moves| - 1]).value, moves[|moves| - 1]);
    }
  }

  // ----- Terminals

  /** A worker that holds the lock and sees the run closed finds its ticket's terminal. */
  lemma HolderFindsTerminal(s: State)
    requires Safe(s) && s.lock == ByWorker && s.closed
    ensures s.active.Some? && Terminal(s.active.value.ticket) in s.store.dir
  {
  }

  /** A finished run has exactly one terminal for each ticket it reserved, and none besides. */
  lemma OneTerminalEach(s: State, n: nat)
    requires Safe(s) && s.main.Finished?
    ensures Terminal(n) in s.store.dir <==> 1 <= n <= s.count
  {
  }

  /**
   A terminal says that the SDK was entered exactly when the wire request is on record, now and whatever happens next.
   */
  lemma {:induction false} TerminalTellsEntry(s: State, moves: seq<Move>, n: nat)
    requires Safe(s) && Terminal(n) in s.store.dir && Run(s, moves).Some?
    ensures s.store.dir[Terminal(n)].Attempt?
    ensures s.store.dir[Terminal(n)].evidence.sdkEntered <==> WireRequest(n) in Run(s, moves).value.store.dir
  {
    RunIsSafe(s, moves);
    RunOnlyAdds(s, moves);
  }

  /** A terminal classified as not sent is never contradicted later; one classified as sent was answered. */
  lemma {:induction false} TerminalTellsSending(s: State, moves: seq<Move>, n: nat)
    requires Safe(s) && Terminal(n) in s.store.dir && Run(s, moves).Some?
    ensures var e, t := s.store.dir[Terminal(n)].evidence, Run(s, moves).value;
            && (Classify(e) == NotSent ==> n !in t.past.sent)
            && (Classify(e) == SentSucceeded || Classify(e) == SentFailed ==> n in s.past.answered && n in s.past.sent)
  {
    RunIsSafe(s, moves);
    TerminalTellsEntry(s, moves, n);
  }

  /** Every late receipt names the terminal its ticket has for good. */
  lemma {:induction false} LateReceiptsMatch(s: State, moves: seq<Move>, l: LateFile)
    requires Safe(s) && l in s.store.late && Run(s, moves).Some?
    ensures var t := Run(s, moves).value;
            && s.closed && l in t.store.late && TicketOf(l).Some? && Terminal(TicketOf(l).value) in t.store.dir
            && t.store.late[l] == t.store.dir[Terminal(TicketOf(l).value)]
  {
    RunIsSafe(s, moves);
    RunOnlyAdds(s, moves);
  }

  // ----- How many requests

  /** A ticket is reserved exactly between two attempts of a run that has not stopped, and never after the 28th. */
  lemma ReservesIff(s: State)
    requires s.main.Ready?
    ensures Step(s, Move(MainThread, Reserve)).Some? <==> !s.stopped && s.count < 28
    ensures Step(s, Move(MainThread, Reserve)).Some? ==>
              Step(s, Move(MainThread, Reserve)).value.count == s.count + 1
  {
  }

  lemma StepCounts(s: State, m: Move)
    requires s.count <= 28 && Step(s, m).Some?
    ensures Step(s, m).value.count <= 28
  {
  }

  lemma {:induction false} AtMostPlanned(moves: seq<Move>)
    requires Run(INITIAL, moves).Some?
    ensures Run(INITIAL, moves).value.count <= 28
  {
    if moves != [] {
      AtMostPlanned(moves[..|moves| - 1]);
      StepCounts(Run(INITIAL, moves[..|moves| - 1]).value, moves[|moves| - 1]);
    }
  }

  // ----- From the start of a run

  lemma {:induction false} RunConcat(s: State, first: seq<Move>, second: seq<Move>)
    ensures Run(s, first + second) == if Run(s, first).None? then None else Run(Run(s, first).value, second)
  {
    if second == [] {
      assert first + second == first;
    } else {
      RunConcat(s, first, second[..|second| - 1]);
      assert (first + second)[..|first + second| - 1] == first + second[..|second| - 1];
    }
  }

  /** What the directory says at one moment still holds at any later one. */
  ghost predicate Lasting(s: State, t: State) {
    && StoreExtends(s.store, t.store) && !t.store.fault
    && (forall n: nat :: Terminal(n) in s.store.dir ==>
          && s.store.dir[Terminal(n)].Attempt?
          && var e := s.store.dir[Terminal(n)].evidence;
             && (e.sdkEntered <==> WireRequest(n) in t.store.dir)
             && (Classify(e) == NotSent ==> n !in t.past.sent)
             && (Classify(e) == SentSucceeded || Classify(e) == SentFailed ==>
                   n in s.past.answered && n in t.past.sent))
  }

  /** A finished run: one terminal for each ticket, and a listing of exactly the other files. */
  ghost predicate Sealed(s: State) {
    && Listing in s.store.dir && s.store.dir[Listing] == Files(s.store.dir.Keys - {Listing})
    && (forall n: nat :: Terminal(n) in s.store.dir <==> 1 <= n <= s.count)
  }

  /**
   In any run from the start, seen after `moves` and again after `more`: what was on record lasts, and a directory
   that was sealed is the same directory, still sealed.
   */
  lemma {:induction false} RecordLasts(moves: seq<Move>, more: seq<Move>)
    requires Run(INITIAL, moves + more).Some?
    ensures Run(INITIAL, moves).Some?
    ensures var s, t := Run(INITIAL, moves).value, Run(INITIAL, moves + more).value;
            Lasting(s, t)
            && (s.main.Finished? ==>
                  Sealed(s) && t.main.Finished? && t.store.dir == s.store.dir && Sealed(t))
  {
    RunConcat(INITIAL, moves, more);
    ReachableIsSafe(moves);
    ReachableIsSafe(moves + more);
    var s, t := Run(INITIAL, moves).value, Run(INITIAL, moves + more).value;
    RunOnlyAdds(s, more);
    forall n: nat | Terminal(n) in s.store.dir
      ensures s.store.dir[Terminal(n)].Attempt?
      ensures s.store.dir[Terminal(n)].evidence.sdkEntered <==> WireRequest(n) in t.store.dir
      ensures Classify(s.store.dir[Terminal(n)].evidence) == NotSent ==> n !in t.past.sent
      ensures var e := s.store.dir[Terminal(n)].evidence;
              Classify(e) == SentSucceeded || Classify(e) == SentFailed ==> n in s.past.answered && n in t.past.sent
    {
      TerminalTellsEntry(s, more, n);
      TerminalTellsSending(s, more, n);
    }
    if s.main.Finished? {
      SealHolds(s, more);
      FinishedIsSealed(s);
      FinishedIsSealed(t);
    }
  }

  lemma FinishedIsSealed(s: State)
    requires Safe(s) && s.main.Finished?
    ensures Sealed(s)
  {
    forall n: nat ensures Terminal(n) in s.store.dir <==> 1 <= n <= s.count {
      OneTerminalEach(s, n);
    }
  }

  // ----- A transport that starts after the run was closed

  ghost predicate CanStartTransport(s: State) {
    exists moves :: Run(s, moves).Some? && Run(s, moves).value.past.sent != s.past.sent
  }

  lemma QuietStep(s: State, m: Move)
    requires Safe(s) && s.closed && !s.worker.ReadyToSend? && Step(s, m).Some?
    ensures var t := Step(s, m).value; t.closed && !t.worker.ReadyToSend? && t.past.sent == s.past.sent
  {
    StepOnlyAdds(s, m);
    if m.thread == MainThread {
      QuietMain(s, m.event);
    }
  }

  lemma QuietMain(s: State, e: Event)
    requires Timing(s) && s.closed && !s.worker.ReadyToSend? && MainStep(s, e).Some?
    ensures var t := MainStep(s, e).value; !t.worker.ReadyToSend? && t.past.sent == s.past.sent
  {
  }

  lemma {:induction false} QuietRun(s: State, moves: seq<Move>)
    requires Safe(s) && s.closed && !s.worker.ReadyToSend? && Run(s, moves).Some?
    ensures var t := Run(s, moves).value; t.closed && !t.worker.ReadyToSend? && t.past.sent == s.past.sent
  {
    if moves != [] {
      QuietRun(s, moves[..|moves| - 1]);
      RunIsSafe(s, moves[..|moves| - 1]);
      QuietStep(Run(s, moves[..|moves| - 1]).value, moves[|moves| - 1]);
    }
  }

  /**
   The flag does not stop every transport: the lock is given back before the SDK is called, so a worker that stands
   between the two when the run is closed still starts its transport. It is the only one that can.
   */
  lemma LateTransportIff(s: State)
    requires Safe(s) && s.closed
    ensures CanStartTransport(s) <==> s.worker.ReadyToSend?
  {
    if s.worker.ReadyToSend? {
      var move := [Move(WorkerThread, Go)];
      RunOne(s, move[0]);
      assert Run(s, move).value.past.sent != s.past.sent;
    } else {
      forall moves | Run(s, moves).Some? ensures Run(s, moves).value.past.sent == s.past.sent {
        QuietRun(s, moves);
      }
    }
  }

  lemma {:induction false} RunOne(s: State, m: Move)
    ensures Run(s, [m]) == Step(s, m)
  {
    assert [m][..0] == [];
  }

  /** Even then the record is honest: the request is on file, and the terminal says that its outcome is unknown. */
  lemma LateTransportIsUnknown(s: State)
    requires Safe(s) && s.closed && s.worker.ReadyToSend? && !BeforeTerminal(s.main)
    ensures WireRequest(s.count) in s.store.dir && Terminal(s.count) in s.store.dir
    ensures var e := s.store.dir[Terminal(s.count)].evidence; e.sdkEntered && Classify(e) == OutcomeUnknown
  {
  }

  // ----- Such a run exists

  lemma {:induction false} RunTwo(s: State, m: Move, n: Move)
    requires Step(s, m).Some?
    ensures Run(s, [m, n]) == Step(Step(s, m).value, n)
  {
    RunOne(s, m);
    RunOne(Step(s, m).value, n);
    RunConcat(s, [m], [n]);
    assert [m] + [n] == [m, n];
  }

  const GO := Move(WorkerThread, Go)
  const MAIN := Move(MainThread, Go)

  lemma WorkerMapped()
    ensures var r := Run(INITIAL, [Move(MainThread, Reserve), Move(MainThread, StartWorker)] + [GO, GO]);
            r.Some? && r.value.worker == HoldWire && r.value.main == Waiting && !r.value.closed
            && r.value.lock == ByWorker && r.value.active.Some?
  {
    RunTwo(INITIAL, Move(MainThread, Reserve), Move(MainThread, StartWorker));
    var s := Run(INITIAL, [Move(MainThread, Reserve), Move(MainThread, StartWorker)]).value;
    RunTwo(s, GO, GO);
    RunConcat(INITIAL, [Move(MainThread, Reserve), Move(MainThread, StartWorker)], [GO, GO]);
  }

  /** A worker that holds the lock on an open run records its request and comes to the point before sending. */
  lemma {:induction false} WorkerRecords(s: State)
    requires s.worker == HoldWire && !s.closed && s.active.Some?
    ensures var r := Run(s, [GO, GO] + [GO]);
            r.Some? && r.value.worker == ReadyToSend && r.value.main == s.main && r.value.lock == Free
            && r.value.active.Some? && !r.value.closed
  {
    RunTwo(s, GO, GO);
    RunOne(Run(s, [GO, GO]).value, GO);
    RunConcat(s, [GO, GO], [GO]);
  }

  /** The main thread gives up and closes the run while the worker stands there. */
  lemma {:induction false} MainGivesUp(s: State)
    requires s.worker == ReadyToSend && s.main == Waiting && s.lock == Free && s.active.Some?
    ensures var r := Run(s, [Move(MainThread, Timeout), MAIN] + [MAIN, MAIN]);
            r.Some? && r.value.closed && r.value.worker == ReadyToSend && !BeforeTerminal(r.value.main)
  {
    RunTwo(s, Move(MainThread, Timeout), MAIN);
    var t := Run(s, [Move(MainThread, Timeout), MAIN]).value;
    RunTwo(t, MAIN, MAIN);
    RunConcat(s, [Move(MainThread, Timeout), MAIN], [MAIN, MAIN]);
  }

  /** From the very start: reserve, record the request, time out, close; the worker is still about to send. */
  lemma LateTransportHappens()
    ensures exists moves :: Run(INITIAL, moves).Some?
              && var s := Run(INITIAL, moves).value; s.closed && s.worker.ReadyToSend? && !BeforeTerminal(s.main)
  {
    var first := [Move(MainThread, Reserve), Move(MainThread, StartWorker)] + [GO, GO];
    WorkerMapped();
    var a := Run(INITIAL, first).value;
    WorkerRecords(a);
    RunConcat(INITIAL, first, [GO, GO] + [GO]);
    var second := first + ([GO, GO] + [GO]);
    MainGivesUp(Run(INITIAL, second).value);
    RunConcat(INITIAL, second, [Move(MainThread, Timeout), MAIN] + [MAIN, MAIN]);
    assert Run(INITIAL, second + ([Move(MainThread, Timeout), MAIN] + [MAIN, MAIN])).Some?;
  }
}
