/** What the worker leaves behind: no receipt of a reply is lost, whenever the run is closed; and whole runs happen. */
module SealedReceipts {
  import opened Basics
  import opened SealedRun
  import opened SealedSafety
  import opened SealedTheorems
  import opened SealedEvidence

  /** An exclusive create fails exactly when its path is taken; otherwise it adds that file and no other. */
  lemma FaultIff(s: Store, file: File, content: Content)
    ensures var t := Create(s, file, content);
            && (t.fault <==> s.fault || file in s.dir) && t.late == s.late
            && (file !in s.dir ==> t.dir == s.dir[file := content]) && (file in s.dir ==> t.dir == s.dir)
  {
  }

  /** A late receipt fails exactly when its path is taken or its ticket has no terminal to name. */
  lemma LateFaultIff(s: Store, file: LateFile, ticket: nat)
    ensures var t := CreateLate(s, file, ticket);
            && (t.fault <==> s.fault || file in s.late || Terminal(ticket) !in s.dir) && t.dir == s.dir
            && (file !in s.late && Terminal(ticket) in s.dir ==> t.late == s.late[file := s.dir[Terminal(ticket)]])
  {
  }

  // ----- No receipt is lost

  /** The file is in the sealed directory or, for the ticket the main thread gave up on, beside it. */
  predicate InPlace(s: State, n: nat, f: File) {
    f in s.store.dir || (s.timedOut && n == s.count && LateReceipt(f) in s.store.late)
  }

  predicate WireInPlace(s: State, n: nat) {
    InPlace(s, n, WireReceipt(n, true)) || InPlace(s, n, WireReceipt(n, false))
  }

  /** The receipts of a ticket that are written when so many are left. */
  predicate Receipts(s: State, n: nat, left: nat) {
    && (left < 3 ==> WireInPlace(s, n))
    && (left < 2 ==> InPlace(s, n, ModelOutput(n)))
    && (left < 1 ==> InPlace(s, n, Normalization(n)))
  }

  function LeftOf(s: State, n: nat): nat {
    if n == s.count then LeftIn(s) else 0
  }

  ghost predicate Receipted(s: State) {
    forall n :: n in s.past.replies ==> n <= s.count && Receipts(s, n, LeftOf(s, n))
  }

  /** Files stay, and a ticket that was given up is the last one. */
  ghost predicate Keeps(s: State, t: State) {
    && s.store.dir.Keys <= t.store.dir.Keys && s.store.late.Keys <= t.store.late.Keys
    && (s.timedOut ==> t.timedOut && t.count == s.count) && s.count <= t.count
  }

  lemma ReceiptsStay(s: State, t: State, n: nat, left: nat, left': nat)
    requires Keeps(s, t) && Receipts(s, n, left) && left <= left'
    ensures Receipts(t, n, left')
  {
  }

  /** As long as no receipt counts as written that was not. */
  lemma ReceiptedStays(s: State, t: State)
    requires Receipted(s) && Keeps(s, t) && t.past.replies == s.past.replies
    requires t.count == s.count && s.count in s.past.replies ==> LeftIn(s) <= LeftIn(t)
    requires t.count != s.count ==> LeftIn(s) == 0
    ensures Receipted(t)
  {
    forall n | n in t.past.replies ensures n <= t.count && Receipts(t, n, LeftOf(t, n)) {
      ReceiptsStay(s, t, n, LeftOf(s, n), LeftOf(t, n));
    }
  }

  lemma StepKeeps(s: State, m: Move)
    requires Safe(s) && Step(s, m).Some?
    ensures Keeps(s, Step(s, m).value)
  {
    StepOnlyAdds(s, m);
    Counted(s, m);
  }

  lemma Counted(s: State, m: Move)
    requires Timing(s) && Step(s, m).Some?
    ensures var t := Step(s, m).value;
            s.count <= t.count && (s.timedOut ==> t.timedOut && t.count == s.count)
  {
  }

  /** Before its request is on record a ticket has no reply. */
  lemma NoReplyYet(s: State)
    requires RepliesWired(s) && Attempting(s) && s.active.Some? && !s.active.value.sdkEntered && !s.worker.Recorded?
    ensures s.count !in s.past.replies
  {
  }

  /** What the worker has left to write, around the lock. */
  lemma LockLeft(s: State)
    requires WorkerLock(s).Some?
    ensures var t := WorkerLock(s).value;
            && t.past == s.past && t.count == s.count
            && (!s.worker.Refused? ==> LeftIn(s) <= LeftIn(t))
  {
  }

  lemma LockReceipted(s: State, t: State)
    requires Attempting(s) && RepliesWired(s) && Receipted(s) && s.active.Some? && WorkerLock(s) == Some(t)
    requires Keeps(s, t)
    ensures Receipted(t)
  {
    LockLeft(s);
    if s.worker.Refused? {
      NoReplyYet(s);
    }
    ReceiptedStays(s, t);
  }

  /** A receipt is written where it belongs. */
  lemma ReceiptWritten(s: State)
    requires Control(s) && s.active.Some? && s.worker.Hold? && !WorkerWrite(s, s.active.value).value.store.fault
    ensures InPlace(WorkerWrite(s, s.active.value).value, s.count, FileOf(s.worker.receipt, s.count))
  {
  }

  lemma WriteLeft(s: State)
    requires Engaged(s) && s.active.Some? && WorkerWrite(s, s.active.value).Some?
    ensures var t := WorkerWrite(s, s.active.value).value;
            && t.past == s.past && t.count == s.count && t.main == s.main && t.timedOut == s.timedOut
            && (s.worker.Hold? ==> t.worker == Written(s.worker.receipt))
  {
  }

  lemma WriteReceipted(s: State, t: State)
    requires Placed(s) && RepliesWired(s) && Receipted(s) && s.active.Some?
    requires WorkerWrite(s, s.active.value) == Some(t) && Keeps(s, t) && !t.store.fault
    ensures Receipted(t)
  {
    WriteLeft(s);
    if s.worker.Hold? {
      ReceiptWritten(s);
      OneReceiptMore(s, t);
    } else {
      NoReplyYet(s);
      ReceiptedStays(s, t);
    }
  }

  lemma OneReceiptMore(s: State, t: State)
    requires Receipted(s) && Keeps(s, t) && t.past == s.past && t.count == s.count && t.main == s.main
    requires s.worker.Hold? && t.worker == Written(s.worker.receipt)
    requires InPlace(t, s.count, FileOf(s.worker.receipt, s.count))
    ensures Receipted(t)
  {
    forall n | n in t.past.replies ensures n <= t.count && Receipts(t, n, LeftOf(t, n)) {
      ReceiptsStay(s, t, n, LeftOf(s, n), LeftOf(s, n));
    }
  }

  lemma ActLeftIn(s: State, e: Event)
    requires Engaged(s) && s.active.Some? && WorkerAct(s, s.active.value, e).Some?
    ensures var t := WorkerAct(s, s.active.value, e).value;
            && t.count == s.count && (!s.worker.Mapping? ==> LeftIn(s) <= LeftIn(t))
            && (s.worker.InSdk? && !s.main.Authorized? ==> LeftIn(t) == 3)
            && (forall n :: n in t.past.replies && n !in s.past.replies ==> s.worker.InSdk? && n == s.count)
  {
  }

  lemma ActReceipted(s: State, e: Event, t: State)
    requires Placed(s) && RepliesWired(s) && Receipted(s) && s.active.Some?
    requires WorkerAct(s, s.active.value, e) == Some(t) && Keeps(s, t)
    ensures Receipted(t)
  {
    ActLeftIn(s, e);
    if s.worker.Mapping? {
      NoReplyYet(s);
    }
    forall n | n in t.past.replies ensures n <= t.count && Receipts(t, n, LeftOf(t, n)) {
      if n in s.past.replies {
        ReceiptsStay(s, t, n, LeftOf(s, n), LeftOf(t, n));
      }
    }
  }

  lemma MainLeft(s: State, e: Event)
    requires Placed(s) && MainStep(s, e).Some?
    ensures var t := MainStep(s, e).value;
            && (t.count == s.count && !s.main.Authorized? ==> LeftIn(s) <= LeftIn(t))
            && (t.count != s.count ==> LeftIn(s) == 0)
  {
  }

  lemma MainReceipted(s: State, e: Event, t: State)
    requires Placed(s) && RepliesWired(s) && Receipted(s) && MainStep(s, e) == Some(t) && Keeps(s, t)
    ensures Receipted(t)
  {
    MainKeepsReplies(s, e);
    MainLeft(s, e);
    if s.main.Authorized? {
      NoReplyYet(s);
    }
    ReceiptedStays(s, t);
  }

  lemma StepReceipted(s: State, m: Move)
    requires Safe(s) && RepliesWired(s) && Receipted(s) && Step(s, m).Some?
    ensures Receipted(Step(s, m).value)
  {
    StepKeeps(s, m);
    if m.thread == MainThread {
      MainReceipted(s, m.event, Step(s, m).value);
    } else {
      if Locking(s.worker) {
        LockReceipted(s, Step(s, m).value);
      } else if Writing(s.worker) {
        StepKeepsSafe(s, m);
        WriteReceipted(s, Step(s, m).value);
      } else {
        ActReceipted(s, m.event, Step(s, m).value);
      }
    }
  }

  lemma {:induction false} RunReceipted(moves: seq<Move>)
    requires Run(INITIAL, moves).Some?
    ensures Receipted(Run(INITIAL, moves).value)
  {
    if moves != [] {
      var before := moves[..|moves| - 1];
      RunReceipted(before);
      ReachableIsSafe(before);
      RunTells(before);
      StepReceipted(Run(INITIAL, before).value, moves[|moves| - 1]);
    }
  }

  /**
   A reply whose worker the main thread saw finish has all its receipts in the sealed directory; one that came after the
   main thread gave up has them, once the worker is done, there or beside it.
   */
  lemma {:induction false} ReceiptsAreKept(moves: seq<Move>, n: nat)
    requires Run(INITIAL, moves).Some? && n in Run(INITIAL, moves).value.past.replies
    ensures var s := Run(INITIAL, moves).value;
            && (n in s.past.endings && s.past.endings[n] == SawDone ==>
                  && (WireReceipt(n, true) in s.store.dir || WireReceipt(n, false) in s.store.dir)
                  && ModelOutput(n) in s.store.dir && Normalization(n) in s.store.dir)
            && (s.worker.Done? ==>
                  WireInPlace(s, n) && InPlace(s, n, ModelOutput(n)) && InPlace(s, n, Normalization(n)))
  {
    var s := Run(INITIAL, moves).value;
    RunReceipted(moves);
    RunTells(moves);
    ReachableIsSafe(moves);
    assert Receipts(s, n, LeftOf(s, n));
  }

  /** With its response written an attempt has evidence: what came back, or that its request could not be mapped. */
  lemma MergedIs(s: State)
    requires Safe(s) && Telling(s) && s.worker.Merge? && s.active.Some?
    ensures WorkerStep(s, Go).Some? && WorkerStep(s, Go).value.active.Some?
    ensures var before, after := s.active.value, WorkerStep(s, Go).value.active.value;
            && after.ticket == before.ticket && after.sdkEntered == before.sdkEntered && after.evidence.Some?
            && (before.sdkEntered ==> before.evidence.Some? && after.evidence == before.evidence)
            && (!before.sdkEntered ==>
                  after.evidence.value == Evidence(false, false, None, false, false, Some(RequestMappingFailed)))
  {
  }

  /** Around the session's call: it may refuse, be never made, or start; then the worker is done or the time is up. */
  lemma SessionMayIff(s: State, e: Event)
    requires s.main.Authorized? || s.main.Waiting?
    ensures s.main.Authorized? ==> (SessionStep(s, e).Some? <==> e in {SessionRefuses, StartWorker, Event.Finish})
    ensures s.main.Waiting? ==> (SessionStep(s, e).Some? <==> e == Timeout || (e.WorkerDone? && s.worker.Done?))
    ensures s.main.Authorized? && e == Event.Finish ==> SessionStep(s, e).value == s.(main := FinalWant)
  {
  }

  // ----- How sessions end

  /** The main thread is inside an attempt whose session has not ended yet. */
  predicate InSession(main: MainPc) {
    main.Authorized? || main.Waiting?
  }

  /** The extraction may end before a session was called; the run is then never ready again. */
  predicate Leaving(main: MainPc) {
    main.FinalWant? || main.HoldFinal? || Ended(main)
  }

  /** Every ticket but the last ended with its worker done, and whatever else ends one stops the run. */
  ghost predicate EndingsTell(s: State) {
    && (forall n :: 1 <= n < s.count ==> n in s.past.endings && s.past.endings[n] == SawDone)
    && (forall n :: n in s.past.endings ==> 1 <= n <= s.count)
    && (s.count in s.past.endings && s.past.endings[s.count] != SawDone ==> s.stopped)
    && (s.count > 0 && !InSession(s.main) && !Leaving(s.main) ==> s.count in s.past.endings)
    && (InSession(s.main) ==> s.count !in s.past.endings)
  }

  lemma SessionEndings(s: State, e: Event)
    requires EndingsTell(s) && InSession(s.main) && s.count > 0 && SessionStep(s, e).Some?
    ensures EndingsTell(SessionStep(s, e).value)
  {
  }

  lemma ReadyEndings(s: State, e: Event)
    requires EndingsTell(s) && s.main.Ready? && ReadyStep(s, e).Some?
    ensures EndingsTell(ReadyStep(s, e).value)
  {
  }

  /** Whatever else the two threads do says nothing about sessions. */
  lemma SameEndings(s: State, t: State)
    requires EndingsTell(s) && t.past.endings == s.past.endings && t.count == s.count && t.stopped == s.stopped
    requires InSession(t.main) == InSession(s.main)
    requires Leaving(t.main) == Leaving(s.main) || Leaving(t.main)
    ensures EndingsTell(t)
  {
  }

  lemma WorkerSameMain(s: State, e: Event)
    requires s.active.Some? && WorkerStep(s, e).Some?
    ensures var t := WorkerStep(s, e).value;
            t.main == s.main && t.past.endings == s.past.endings && t.count == s.count && t.stopped == s.stopped
  {
  }

  lemma MainSameSession(s: State, e: Event)
    requires !s.main.Ready? && !InSession(s.main) && MainStep(s, e).Some?
    ensures var t := MainStep(s, e).value;
            && t.past.endings == s.past.endings && t.count == s.count && t.stopped == s.stopped
            && !InSession(t.main) && (Leaving(s.main) ==> Leaving(t.main))
  {
  }

  lemma StepEndings(s: State, m: Move)
    requires Engaged(s) && EndingsTell(s) && Step(s, m).Some?
    ensures EndingsTell(Step(s, m).value)
  {
    if m.thread == WorkerThread {
      WorkerSameMain(s, m.event);
      SameEndings(s, Step(s, m).value);
    } else if s.main.Ready? {
      ReadyEndings(s, m.event);
    } else if InSession(s.main) {
      SessionEndings(s, m.event);
    } else {
      MainSameSession(s, m.event);
      SameEndings(s, Step(s, m).value);
    }
  }

  lemma {:induction false} RunEndings(moves: seq<Move>)
    requires Run(INITIAL, moves).Some?
    ensures EndingsTell(Run(INITIAL, moves).value)
  {
    if moves != [] {
      RunEndings(moves[..|moves| - 1]);
      ReachableIsSafe(moves[..|moves| - 1]);
      StepEndings(Run(INITIAL, moves[..|moves| - 1]).value, moves[|moves| - 1]);
    }
  }

  /** Tickets follow one another, and only the last can have been refused or given up, which stops the run. */
  lemma {:induction false} OnlyLastFails(moves: seq<Move>, n: nat)
    requires Run(INITIAL, moves).Some? && 1 <= n <= Run(INITIAL, moves).value.count
    ensures var s := Run(INITIAL, moves).value;
            && (n < s.count ==> n in s.past.endings && s.past.endings[n] == SawDone)
            && (n in s.past.endings && s.past.endings[n] != SawDone ==> s.stopped && n == s.count)
            && (s.main.Ready? ==> n in s.past.endings)
  {
    RunEndings(moves);
  }

  /** A session that reports a failure stops the run too. */
  lemma FailureStops(s: State, failed: bool)
    requires s.main.Waiting? && s.worker.Done?
    ensures Step(s, Move(MainThread, WorkerDone(failed))).Some?
    ensures var t := Step(s, Move(MainThread, WorkerDone(failed))).value;
            (t.stopped <==> s.stopped || failed) && s.count in t.past.endings && t.past.endings[s.count] == SawDone
  {
  }

  // ----- What was known at the cutoff

  /** What the attempt had when the main thread gave up is put beside the sealed directory, and nothing otherwise. */
  lemma CutoffIff(s: State)
    requires Safe(s) && s.active.Some?
    ensures s.main.HoldReturn? ==>
              var t := MainStep(s, Go);
              t.Some? && t.value.main.HoldTerminal?
              && (t.value.main.cutoff <==> s.timedOut && s.active.value.evidence.Some?)
    ensures s.main.HoldTerminal? ==>
              var t := MainStep(s, Go);
              t.Some? && t.value.store.late == s.store.late && (t.value.main.HoldCutoff? <==> s.main.cutoff)
    ensures s.main.HoldCutoff? ==>
              var t := MainStep(s, Go);
              t.Some? && AtCutoff(s.count) !in s.store.late && AtCutoff(s.count) in t.value.store.late
              && Terminal(s.count) in s.store.dir
              && t.value.store.late[AtCutoff(s.count)] == s.store.dir[Terminal(s.count)]
  {
  }

  // ----- Batches

  /** Exactly the batches so far are on record. */
  ghost predicate Batched(s: State) {
    forall b: nat :: Discovery(b) in s.store.dir <==> b < s.batches
  }

  /** A step that writes no batch. */
  ghost predicate NoBatch(s: State, t: State) {
    && t.batches == s.batches
    && forall b: nat :: Discovery(b) in t.store.dir <==> Discovery(b) in s.store.dir
  }

  lemma WorkerNoBatch(s: State, e: Event)
    requires s.active.Some? && WorkerStep(s, e).Some?
    ensures NoBatch(s, WorkerStep(s, e).value)
  {
  }

  lemma SessionNoBatch(s: State, e: Event)
    requires SessionStep(s, e).Some?
    ensures NoBatch(s, SessionStep(s, e).value)
  {
  }

  lemma DecideNoBatch(s: State)
    requires s.active.Some? && MainDecide(s, s.active.value).Some?
    ensures NoBatch(s, MainDecide(s, s.active.value).value)
  {
  }

  lemma WriteNoBatch(s: State)
    requires s.active.Some? && MainWrite(s, s.active.value).Some?
    ensures NoBatch(s, MainWrite(s, s.active.value).value)
  {
  }

  lemma SealNoBatch(s: State)
    requires SealStep(s).Some?
    ensures NoBatch(s, SealStep(s).value)
  {
  }

  lemma MainNoBatch(s: State, e: Event)
    requires !s.main.Ready? && MainStep(s, e).Some?
    ensures NoBatch(s, MainStep(s, e).value)
  {
    match s.main
    case Authorized | Waiting => SessionNoBatch(s, e);
    case ReturnWant | HoldDone | FinalWant | HoldEnd => LockOnly(s);
    case HoldReturn => DecideNoBatch(s);
    case HoldFinal => if s.active.Some? { DecideNoBatch(s); }
    case HoldTerminal(_, _) | HoldCutoff | HoldLast(_) => WriteNoBatch(s);
    case Completing | Sealing => SealNoBatch(s);
  }

  lemma ReadyBatches(s: State, e: Event)
    requires s.main.Ready? && Batched(s) && ReadyStep(s, e).Some?
    ensures Batched(ReadyStep(s, e).value)
    ensures ReadyStep(s, e).value.batches == s.batches + if e == Batch then 1 else 0
  {
  }

  lemma StepBatched(s: State, m: Move)
    requires Batched(s) && Step(s, m).Some?
    ensures Batched(Step(s, m).value)
    ensures Step(s, m).value.batches == s.batches + if s.main.Ready? && m == Move(MainThread, Batch) then 1 else 0
  {
    if m.thread == WorkerThread {
      WorkerNoBatch(s, m.event);
    } else if s.main.Ready? {
      ReadyBatches(s, m.event);
    } else {
      MainNoBatch(s, m.event);
    }
  }

  /** The batches on record are those counted, from the first on. */
  lemma {:induction false} BatchesOnRecord(moves: seq<Move>, b: nat)
    requires Run(INITIAL, moves).Some?
    ensures Discovery(b) in Run(INITIAL, moves).value.store.dir <==> b < Run(INITIAL, moves).value.batches
  {
    RunBatched(moves);
  }

  lemma {:induction false} RunBatched(moves: seq<Move>)
    requires Run(INITIAL, moves).Some?
    ensures Batched(Run(INITIAL, moves).value)
  {
    if moves != [] {
      RunBatched(moves[..|moves| - 1]);
      StepBatched(Run(INITIAL, moves[..|moves| - 1]).value, moves[|moves| - 1]);
    }
  }

  // ----- A whole run

  ghost predicate Reaches(s: State, t: State) {
    exists moves :: Run(s, moves) == Some(t)
  }

  lemma ReachesOn(s: State, t: State, u: State)
    requires Reaches(s, t) && Reaches(t, u)
    ensures Reaches(s, u)
  {
    var first :| Run(s, first) == Some(t);
    var second :| Run(t, second) == Some(u);
    RunConcat(s, first, second);
  }

  lemma ReachesBy(s: State, t: State, m: Move, u: State)
    requires Reaches(s, t) && Step(t, m) == Some(u)
    ensures Reaches(s, u)
  {
    RunOne(t, m);
    ReachesOn(s, t, u);
  }

  lemma ReachesSelf(s: State)
    ensures Reaches(s, s)
  {
    assert Run(s, []) == Some(s);
  }

  function FromStart(reserved: Store): State {
    INITIAL.(store := reserved, count := 1, active := Some(Active(1, false, None)), main := Waiting, worker := Mapping)
  }

  /** The first ticket is reserved and the worker started. */
  lemma Starts()
    ensures Reaches(INITIAL, FromStart(Create(INITIAL.store, Reserved(1), Plain)))
  {
    var s := INITIAL;
    var t := s.(store := Create(s.store, Reserved(1), Plain), count := 1, active := Some(Active(1, false, None)),
                main := Authorized);
    ReachesSelf(s);
    ReachesBy(s, s, Move(MainThread, Reserve), t);
    ReachesBy(s, t, Move(MainThread, StartWorker), FromStart(Create(INITIAL.store, Reserved(1), Plain)));
  }

  /** The worker records its request. */
  lemma Records(s: State, a: Active)
    requires s.worker == Mapping && s.lock == Free && !s.closed && s.active == Some(a)
    ensures Reaches(s, s.(worker := ReadyToSend, active := Some(a.(sdkEntered := true)),
                          store := Create(s.store, WireRequest(a.ticket), Plain)))
  {
    var want := s.(worker := WantWire);
    var hold := s.(worker := HoldWire, lock := ByWorker);
    var recorded := hold.(worker := Recorded, store := Create(s.store, WireRequest(a.ticket), Plain));
    var entered := recorded.(worker := Entered, active := Some(a.(sdkEntered := true)));
    ReachesSelf(s);
    ReachesBy(s, s, GO, want);
    ReachesBy(s, want, GO, hold);
    ReachesBy(s, hold, GO, recorded);
    ReachesBy(s, recorded, GO, entered);
    ReachesBy(s, entered, GO, entered.(lock := Free, worker := ReadyToSend));
  }

  function EvidenceOf(r: Reply): Evidence {
    Evidence(true, r.received, r.status, r.providerError, r.identified, None)
  }

  /** It sends the request and any reply comes back. */
  lemma Answers(s: State, a: Active, raised: bool, r: Reply)
    requires s.worker == ReadyToSend && s.active == Some(a)
    ensures Reaches(s, s.(worker := Want(Wire(raised, EvidenceOf(r))),
                          past := Replied(Sent(s.past, a.ticket), a.ticket, r)))
  {
    var sent := s.(worker := InSdk, past := Sent(s.past, a.ticket));
    var reply := Move(WorkerThread, Answer(raised, r.received, r.status, r.providerError, r.identified));
    ReachesSelf(s);
    ReachesBy(s, s, GO, sent);
    assert r == Reply(r.received, r.status, r.providerError, r.identified);
    ReachesBy(s, sent, reply, s.(worker := Want(Wire(raised, EvidenceOf(r))),
                                 past := Replied(Sent(s.past, a.ticket), a.ticket, r)));
  }

  /** It writes a receipt under the lock. */
  lemma Writes(s: State, a: Active, r: Receipt)
    requires s.worker == Want(r) && s.lock == Free && !s.closed && s.active == Some(a)
    ensures Reaches(s, s.(worker := AfterReceipt(r), store := Create(s.store, FileOf(r, a.ticket), Plain)))
  {
    var hold := s.(worker := Hold(r), lock := ByWorker);
    var written := hold.(worker := Written(r), store := Create(s.store, FileOf(r, a.ticket), Plain));
    ReachesSelf(s);
    ReachesBy(s, s, GO, hold);
    ReachesBy(s, hold, GO, written);
    ReachesBy(s, written, GO, written.(worker := AfterReceipt(r), lock := Free));
  }

  /** It writes what came back and keeps it as evidence. */
  lemma KeepsReply(s: State, a: Active, raised: bool, e: Evidence)
    requires s.worker == Want(Wire(raised, e)) && s.lock == Free && !s.closed && s.active == Some(a)
    ensures Reaches(s, s.(worker := Want(Model), active := Some(a.(evidence := Some(e))),
                          store := Create(s.store, WireReceipt(a.ticket, raised), Plain)))
  {
    var one := s.(worker := SetEvidence(e), store := Create(s.store, WireReceipt(a.ticket, raised), Plain));
    Writes(s, a, Wire(raised, e));
    ReachesBy(s, one, GO, one.(worker := Want(Model), active := Some(a.(evidence := Some(e)))));
  }

  /** It writes the response and the evidence, and is done. */
  lemma WritesRest(s: State, a: Active, e: Evidence)
    requires s.worker == Want(Model) && s.lock == Free && !s.closed && s.active == Some(a)
    requires a.sdkEntered && a.evidence == Some(e)
    ensures var store := Create(s.store, ModelOutput(a.ticket), Plain);
            Reaches(s, s.(worker := Done, store := Create(store, Normalization(a.ticket), Plain)))
  {
    var one := s.(worker := Merge, store := Create(s.store, ModelOutput(a.ticket), Plain));
    var two := one.(worker := Want(Normal));
    Writes(s, a, Model);
    assert Merged(a) == e;
    ReachesBy(s, one, GO, two);
    Writes(two, a, Normal);
    ReachesOn(s, two, two.(worker := Done, store := Create(one.store, Normalization(a.ticket), Plain)));
  }

  /** So it writes all three receipts of its reply. */
  lemma WritesAll(s: State, a: Active, raised: bool, e: Evidence)
    requires s.worker == Want(Wire(raised, e)) && s.lock == Free && !s.closed && s.active == Some(a) && a.sdkEntered
    ensures exists store ::
              && Reaches(s, s.(worker := Done, active := Some(a.(evidence := Some(e))), store := store))
              && (Terminal(a.ticket) in s.store.dir <==> Terminal(a.ticket) in store.dir)
  {
    var b := a.(evidence := Some(e));
    var first := Create(s.store, WireReceipt(a.ticket, raised), Plain);
    var last := Create(Create(first, ModelOutput(a.ticket), Plain), Normalization(a.ticket), Plain);
    var one := s.(worker := Want(Model), active := Some(b), store := first);
    KeepsReply(s, a, raised, e);
    WritesRest(one, b, e);
    ReachesOn(s, one, one.(worker := Done, store := last));
    assert one.(worker := Done, store := last) == s.(worker := Done, active := Some(b), store := last);
  }

  /** The main thread sees it and holds the lock. */
  lemma Returns(s: State, a: Active)
    requires s.main == Waiting && s.worker == Done && s.lock == Free && s.active == Some(a)
    ensures Reaches(s, s.(main := HoldReturn, lock := ByMain, worker := Off,
                          past := EndedWith(s.past, s.count, SawDone)))
  {
    var back := s.(main := ReturnWant, worker := Off, past := EndedWith(s.past, s.count, SawDone));
    ReachesSelf(s);
    ReachesBy(s, s, Move(MainThread, WorkerDone(false)), back);
    ReachesBy(s, back, MAIN, back.(main := HoldReturn, lock := ByMain));
  }

  /** It writes the terminal. */
  lemma Settles(s: State, a: Active)
    requires s.main == HoldReturn && s.lock == ByMain && !s.timedOut && s.active == Some(a)
    ensures Reaches(s, s.(main := Ready, lock := Free,
                          store := Create(s.store, Terminal(a.ticket), Attempt(Settled(a)))))
  {
    var decided := s.(main := HoldTerminal(Settled(a), false));
    var written := s.(main := HoldDone, store := Create(s.store, Terminal(a.ticket), Attempt(Settled(a))));
    ReachesSelf(s);
    ReachesBy(s, s, MAIN, decided);
    ReachesBy(s, decided, MAIN, written);
    ReachesBy(s, written, MAIN, written.(main := Ready, lock := Free));
  }

  /** Then it closes the run. */
  lemma Closes(s: State, a: Active)
    requires s.main == Ready && s.lock == Free && s.active == Some(a) && Terminal(a.ticket) in s.store.dir
    ensures Reaches(s, s.(main := Completing, closed := true))
  {
    var want := s.(main := FinalWant);
    var hold := s.(main := HoldFinal, lock := ByMain);
    var end := s.(main := HoldEnd, lock := ByMain, closed := true);
    ReachesSelf(s);
    ReachesBy(s, s, Move(MainThread, Event.Finish), want);
    ReachesBy(s, want, MAIN, hold);
    ReachesBy(s, hold, MAIN, end);
    ReachesBy(s, end, MAIN, s.(main := Completing, closed := true));
  }

  /** And it seals the directory. */
  lemma Seals(s: State)
    requires s.main == Completing
    ensures exists t :: Reaches(s, t) && t.main.Finished? && t.past == s.past && s.store.dir.Keys <= t.store.dir.Keys
  {
    var sealing := s.(main := Sealing, store := Create(s.store, Completion, Plain));
    var finished := sealing.(main := MainPc.Finished,
                             store := Create(sealing.store, Listing, Files(sealing.store.dir.Keys)));
    ReachesSelf(s);
    ReachesBy(s, s, MAIN, sealing);
    ReachesBy(s, sealing, MAIN, finished);
  }

  /** The run is sealed after one request, and its terminal is this reply. */
  predicate SealedWith(s: State, r: Reply) {
    && s.main.Finished? && s.past.replies == map[1 := r] && s.past.endings == map[1 := SawDone]
    && Terminal(1) in s.store.dir && s.store.dir[Terminal(1)].Attempt? && Says(s.store.dir[Terminal(1)].evidence, r)
  }

  /** Any reply can come back in a run that is then settled and sealed, and its terminal says exactly that reply. */
  lemma AnsweredRunHappens(raised: bool, r: Reply)
    ensures exists moves :: Run(INITIAL, moves).Some? && SealedWith(Run(INITIAL, moves).value, r)
  {
    var a := Active(1, false, None);
    var entered := a.(sdkEntered := true);
    var s := FromStart(Create(INITIAL.store, Reserved(1), Plain));
    var ready := s.(worker := ReadyToSend, active := Some(entered), store := Create(s.store, WireRequest(1), Plain));
    var back := ready.(worker := Want(Wire(raised, EvidenceOf(r))), past := Replied(Sent(s.past, 1), 1, r));
    Starts();
    Records(s, a);
    ReachesOn(INITIAL, s, ready);
    Answers(ready, entered, raised, r);
    ReachesOn(INITIAL, ready, back);
    Afterwards(back, entered, raised, r);
  }

  lemma Afterwards(s: State, a: Active, raised: bool, r: Reply)
    requires Reaches(INITIAL, s) && s.main == Waiting && s.worker == Want(Wire(raised, EvidenceOf(r)))
    requires s.lock == Free && !s.closed && !s.timedOut && s.count == 1 && a.ticket == 1 && a.sdkEntered
    requires s.active == Some(a) && s.past.replies == map[1 := r] && s.past.endings == map[]
    requires Terminal(1) !in s.store.dir
    ensures exists moves :: Run(INITIAL, moves).Some? && SealedWith(Run(INITIAL, moves).value, r)
  {
    WritesAll(s, a, raised, EvidenceOf(r));
    var b := a.(evidence := Some(EvidenceOf(r)));
    var store :| Reaches(s, s.(worker := Done, active := Some(b), store := store)) && Terminal(1) !in store.dir;
    var done := s.(worker := Done, active := Some(b), store := store);
    var hold := done.(main := HoldReturn, lock := ByMain, worker := Off, past := EndedWith(s.past, 1, SawDone));
    var settled := hold.(main := Ready, lock := Free, store := Create(store, Terminal(1), Attempt(Settled(b))));
    ReachesOn(INITIAL, s, done);
    Returns(done, b);
    ReachesOn(INITIAL, done, hold);
    Settles(hold, b);
    ReachesOn(INITIAL, hold, settled);
    Ends(settled, b, r);
  }

  lemma Ends(s: State, a: Active, r: Reply)
    requires Reaches(INITIAL, s) && s.main == Ready && s.lock == Free && s.active == Some(a) && a.ticket == 1
    requires Terminal(1) in s.store.dir && s.past.replies == map[1 := r] && s.past.endings == map[1 := SawDone]
    ensures exists moves :: Run(INITIAL, moves).Some? && SealedWith(Run(INITIAL, moves).value, r)
  {
    var closed := s.(main := Completing, closed := true);
    Closes(s, a);
    ReachesOn(INITIAL, s, closed);
    Seals(closed);
    var t :| Reaches(closed, t) && t.main.Finished? && t.past == s.past && s.store.dir.Keys <= t.store.dir.Keys;
    ReachesOn(INITIAL, closed, t);
    assert Terminal(1) in t.store.dir.Keys;
    var moves :| Run(INITIAL, moves) == Some(t);
    SeenReplyIsKept(moves, 1);
  }
}
