/** What the terminals of a sealed run say of the requests: exactly what came back, or exactly why nothing is known. */
module SealedEvidence {
  import opened Basics
  import opened SealedRun
  import opened SealedSafety
  import opened SealedTheorems

  /** The evidence is the reply, word for word. */
  predicate Says(e: Evidence, r: Reply) {
    && e.sdkEntered && e.rejection.None?
    && e.received == r.received && e.status == r.status && e.providerError == r.providerError
    && e.identified == r.identified
  }

  predicate SaysReply(e: Evidence, replies: map<nat, Reply>, n: nat) {
    n in replies && Says(e, replies[n])
  }

  /** Nothing is known of the request: no reply and no reason against one. */
  predicate SaysNothing(e: Evidence) {
    !e.received && e.status.None? && !e.providerError && !e.identified && e.rejection.None?
  }

  /**
   What a terminal must say. When the main thread gave up it says nothing but whether the SDK was entered; when the SDK
   was never entered it says so, and that the guard stopped the request; otherwise it is the reply.
   */
  predicate Tells(e: Evidence, wired: bool, gaveUp: bool, replies: map<nat, Reply>, n: nat) {
    if gaveUp then SaysNothing(e) && (e.sdkEntered <==> wired)
    else if !wired then e == Evidence(false, false, None, false, false, Some(SourceOrBudgetGuard))
    else SaysReply(e, replies, n)
  }

  predicate GaveUpOn(endings: map<nat, Ending>, n: nat) {
    n in endings && endings[n] == GaveUp
  }

  predicate Wired(s: State, n: nat) {
    WireRequest(n) in s.store.dir
  }

  predicate TellsOf(s: State, n: nat, e: Evidence) {
    Tells(e, Wired(s, n), GaveUpOn(s.past.endings, n), s.past.replies, n)
  }

  // ----- The invariant

  /** The reply is known to the active attempt, or on its way to it. */
  predicate PastReply(worker: WorkerPc) {
    worker.Merge? || worker.Done? || worker.Off?
    || (worker.Want? && !worker.receipt.Wire?) || (worker.Hold? && !worker.receipt.Wire?)
    || (worker.Written? && !worker.receipt.Wire?)
  }

  predicate BeforeReply(worker: WorkerPc) {
    BeforeWire(worker) || worker.Recorded? || worker.Entered? || worker.ReadyToSend? || worker.InSdk?
    || WorkerEvidence(worker).Some?
  }

  /** What the active attempt has of its reply. */
  predicate ActiveTells(s: State) {
    && (WorkerEvidence(s.worker).Some? ==> SaysReply(WorkerEvidence(s.worker).value, s.past.replies, s.count))
    && (s.active.Some? ==>
          var a := s.active.value;
          && (a.evidence.Some? && a.sdkEntered ==> SaysReply(a.evidence.value, s.past.replies, s.count))
          && (a.evidence.Some? && !a.sdkEntered ==>
                a.evidence.value == Evidence(false, false, None, false, false, Some(RequestMappingFailed)))
          && (WorkerEvidence(s.worker).Some? ==> a.sdkEntered)
          && (a.sdkEntered && PastReply(s.worker) ==> a.evidence.Some?)
          && (BeforeReply(s.worker) ==> a.evidence.None?))
  }

  /** How the active ticket's session ended, as the main thread knows it; no earlier one was given up. */
  predicate EndingKnown(s: State) {
    && (forall n :: n in s.past.endings && s.past.endings[n] == GaveUp ==> n == s.count && s.timedOut)
    && (s.timedOut ==> GaveUpOn(s.past.endings, s.count))
    && (s.main.Authorized? || s.main.Waiting? ==> s.count !in s.past.endings)
    && (forall n :: n in s.past.endings ==> n <= s.count)
  }

  predicate MainTells(s: State) {
    MainEvidence(s.main).Some? ==> TellsOf(s, s.count, MainEvidence(s.main).value)
  }

  ghost predicate AllTell(s: State) {
    forall n: nat :: Terminal(n) in s.store.dir ==>
                       s.store.dir[Terminal(n)].Attempt? && TellsOf(s, n, s.store.dir[Terminal(n)].evidence)
  }

  /** A reply only comes to a request on record. */
  predicate RepliesWired(s: State) {
    forall n :: n in s.past.replies ==> Wired(s, n)
  }

  ghost predicate Telling(s: State) {
    ActiveTells(s) && EndingKnown(s) && MainTells(s) && AllTell(s)
  }

  // ----- What each statement keeps

  lemma TellsSame(s: State, t: State, n: nat, e: Evidence)
    requires TellsOf(s, n, e) && Wired(t, n) == Wired(s, n)
    requires GaveUpOn(t.past.endings, n) == GaveUpOn(s.past.endings, n)
    requires GaveUpOn(s.past.endings, n) || (n in t.past.replies <==> n in s.past.replies)
    requires GaveUpOn(s.past.endings, n) || (n in s.past.replies ==> t.past.replies[n] == s.past.replies[n])
    ensures TellsOf(t, n, e)
  {
  }

  /** Nothing that the terminals speak of has changed, apart from replies to requests that were given up. */
  ghost predicate SameTerminals(s: State, t: State) {
    forall n: nat :: Terminal(n) in t.store.dir ==>
      && Terminal(n) in s.store.dir && t.store.dir[Terminal(n)] == s.store.dir[Terminal(n)]
      && Wired(t, n) == Wired(s, n) && GaveUpOn(t.past.endings, n) == GaveUpOn(s.past.endings, n)
      && (GaveUpOn(s.past.endings, n) || (n in t.past.replies <==> n in s.past.replies))
      && (GaveUpOn(s.past.endings, n) || (n in s.past.replies ==> t.past.replies[n] == s.past.replies[n]))
  }

  lemma AllTellSame(s: State, t: State)
    requires AllTell(s) && SameTerminals(s, t)
    ensures AllTell(t)
  {
    forall n: nat | Terminal(n) in t.store.dir
      ensures t.store.dir[Terminal(n)].Attempt? && TellsOf(t, n, t.store.dir[Terminal(n)].evidence)
    {
      TellsSame(s, t, n, s.store.dir[Terminal(n)].evidence);
    }
  }

  lemma SameFilesTell(s: State, t: State)
    requires EndingKnown(s) && MainTells(s) && t.store == s.store
    requires t.past.endings == s.past.endings && t.past.replies == s.past.replies
    requires t.main == s.main && t.count == s.count && t.timedOut == s.timedOut
    ensures EndingKnown(t) && MainTells(t) && SameTerminals(s, t)
  {
  }

  lemma WorkerLockTells(s: State)
    requires Attempting(s) && s.active.Some? && ActiveTells(s) && WorkerLock(s).Some?
    ensures ActiveTells(WorkerLock(s).value)
  {
  }

  lemma WorkerWriteTells(s: State)
    requires Placed(s) && !s.store.fault && ActiveTells(s) && EndingKnown(s) && MainTells(s) && s.active.Some?
    requires WorkerWrite(s, s.active.value).Some?
    ensures var t := WorkerWrite(s, s.active.value).value; ActiveTells(t) && EndingKnown(t) && MainTells(t)
  {
  }

  lemma WorkerWriteSame(s: State)
    requires Safe(s) && s.active.Some? && WorkerWrite(s, s.active.value).Some?
    ensures SameTerminals(s, WorkerWrite(s, s.active.value).value)
  {
  }

  lemma BeforeSendTells(s: State, e: Event)
    requires Attempting(s) && ActiveTells(s) && s.active.Some? && WorkerAct(s, s.active.value, e).Some?
    requires s.worker.Mapping? || s.worker.Recorded? || s.worker.ReadyToSend?
    ensures ActiveTells(WorkerAct(s, s.active.value, e).value)
  {
  }

  lemma ReplyTells(s: State, e: Event)
    requires Engaged(s) && Attempting(s) && ActiveTells(s) && s.active.Some? && s.worker.InSdk?
    requires WorkerAct(s, s.active.value, e).Some?
    ensures ActiveTells(WorkerAct(s, s.active.value, e).value)
  {
  }

  lemma EvidenceTells(s: State, e: Event)
    requires ActiveTells(s) && s.active.Some? && WorkerAct(s, s.active.value, e).Some?
    requires s.worker.SetEvidence? || s.worker.Merge?
    ensures ActiveTells(WorkerAct(s, s.active.value, e).value)
  {
  }

  lemma WorkerActTellsActive(s: State, e: Event)
    requires Placed(s) && ActiveTells(s) && s.active.Some? && WorkerAct(s, s.active.value, e).Some?
    ensures ActiveTells(WorkerAct(s, s.active.value, e).value)
  {
    match s.worker
    case InSdk => ReplyTells(s, e);
    case SetEvidence(_) | Merge => EvidenceTells(s, e);
    case Mapping | Recorded | ReadyToSend => BeforeSendTells(s, e);
  }

  /** Outside the lock the worker changes no file; a reply is added only for its own ticket. */
  lemma WorkerActOnly(s: State, e: Event)
    requires s.active.Some? && WorkerAct(s, s.active.value, e).Some?
    ensures var t := WorkerAct(s, s.active.value, e).value;
            && t.store == s.store && t.main == s.main && t.count == s.count && t.timedOut == s.timedOut
            && t.past.endings == s.past.endings
            && t.past.replies.Keys <= s.past.replies.Keys + {s.active.value.ticket}
            && (forall n :: n in s.past.replies && n != s.active.value.ticket ==>
                  n in t.past.replies && t.past.replies[n] == s.past.replies[n])
            && (!s.worker.InSdk? ==> t.past.replies == s.past.replies)
  {
  }

  lemma WorkerActTellsMain(s: State, e: Event)
    requires Placed(s) && EndingKnown(s) && MainTells(s) && s.active.Some?
    requires WorkerAct(s, s.active.value, e).Some?
    ensures var t := WorkerAct(s, s.active.value, e).value; EndingKnown(t) && MainTells(t)
  {
    WorkerActOnly(s, e);
  }

  lemma WorkerActSame(s: State, e: Event)
    requires Placed(s) && EndingKnown(s) && s.active.Some? && WorkerAct(s, s.active.value, e).Some?
    ensures SameTerminals(s, WorkerAct(s, s.active.value, e).value)
  {
    WorkerActOnly(s, e);
  }

  lemma ReadyTells(s: State, e: Event)
    requires Placed(s) && ActiveTells(s) && EndingKnown(s) && s.main.Ready? && ReadyStep(s, e).Some?
    ensures var t := ReadyStep(s, e).value; ActiveTells(t) && EndingKnown(t) && MainTells(t)
  {
  }

  lemma ReadySame(s: State, e: Event)
    requires s.main.Ready? && ReadyStep(s, e).Some?
    ensures SameTerminals(s, ReadyStep(s, e).value)
  {
  }

  lemma SessionTells(s: State, e: Event)
    requires Placed(s) && ActiveTells(s) && EndingKnown(s)
    requires (s.main.Authorized? || s.main.Waiting?) && SessionStep(s, e).Some?
    ensures var t := SessionStep(s, e).value; ActiveTells(t) && EndingKnown(t) && MainTells(t)
  {
  }

  lemma SessionSame(s: State, e: Event)
    requires Placed(s) && (s.main.Authorized? || s.main.Waiting?) && SessionStep(s, e).Some?
    ensures SameTerminals(s, SessionStep(s, e).value)
  {
  }

  /** A step of the main thread that changes neither the attempt nor any file. */
  lemma SameAttemptTells(s: State, t: State)
    requires ActiveTells(s) && EndingKnown(s) && t.store == s.store
    requires t.past.endings == s.past.endings && t.past.replies == s.past.replies
    requires t.worker == s.worker && t.active == s.active && t.count == s.count && t.timedOut == s.timedOut
    requires !t.main.Authorized? && !t.main.Waiting?
    ensures ActiveTells(t) && EndingKnown(t) && SameTerminals(s, t)
  {
  }

  lemma MainLockTells(s: State)
    requires ActiveTells(s) && EndingKnown(s) && MainLock(s).Some?
    ensures var t := MainLock(s).value; ActiveTells(t) && EndingKnown(t) && MainTells(t) && SameTerminals(s, t)
  {
    LockOnly(s);
    SameAttemptTells(s, MainLock(s).value);
  }

  lemma LockOnly(s: State)
    requires MainLock(s).Some?
    ensures var t := MainLock(s).value;
            && t == s.(lock := t.lock, main := t.main) && MainEvidence(t.main).None?
            && !t.main.Authorized? && !t.main.Waiting?
  {
  }

  /** What a terminal must say follows from what the active attempt knows. */
  lemma SettledTells(s: State)
    requires Placed(s) && ActiveTells(s) && EndingKnown(s) && s.active.Some? && !s.timedOut
    requires s.main.HoldReturn? || s.main.HoldFinal?
    ensures TellsOf(s, s.count, Settled(s.active.value))
  {
  }

  lemma GivenUpTells(s: State)
    requires Placed(s) && EndingKnown(s) && s.active.Some? && s.timedOut && s.main.HoldReturn?
    ensures TellsOf(s, s.count, Bare(s.active.value.sdkEntered))
  {
  }

  lemma DecideTells(s: State)
    requires Placed(s) && ActiveTells(s) && EndingKnown(s) && s.active.Some? && MainDecide(s, s.active.value).Some?
    ensures var t := MainDecide(s, s.active.value).value;
            ActiveTells(t) && EndingKnown(t) && MainTells(t) && SameTerminals(s, t)
  {
    SameAttemptTells(s, MainDecide(s, s.active.value).value);
    if s.timedOut {
      if s.main.HoldReturn? { GivenUpTells(s); }
    } else {
      SettledTells(s);
    }
  }

  lemma MainWriteTells(s: State)
    requires Placed(s) && ActiveTells(s) && EndingKnown(s) && s.active.Some? && MainWrite(s, s.active.value).Some?
    ensures var t := MainWrite(s, s.active.value).value; ActiveTells(t) && EndingKnown(t) && MainTells(t)
  {
  }

  /** A new terminal is what the main thread was about to write. */
  lemma MainWriteAllTell(s: State)
    requires Safe(s) && MainTells(s) && AllTell(s) && s.active.Some? && MainWrite(s, s.active.value).Some?
    ensures AllTell(MainWrite(s, s.active.value).value)
  {
  }

  lemma SealOnly(s: State)
    requires SealStep(s).Some?
    ensures var t := SealStep(s).value;
            && t == s.(store := t.store, main := t.main) && MainEvidence(t.main).None?
            && !t.main.Authorized? && !t.main.Waiting?
  {
  }

  lemma SealTells(s: State)
    requires ActiveTells(s) && EndingKnown(s) && SealStep(s).Some?
    ensures var t := SealStep(s).value; ActiveTells(t) && EndingKnown(t) && MainTells(t)
  {
    SealOnly(s);
  }

  lemma SealSame(s: State)
    requires SealStep(s).Some?
    ensures SameTerminals(s, SealStep(s).value)
  {
  }

  lemma RepliesStayWired(s: State, m: Move)
    requires Safe(s) && RepliesWired(s) && Step(s, m).Some?
    ensures RepliesWired(Step(s, m).value)
  {
    StepOnlyAdds(s, m);
    if m.thread == WorkerThread {
      ReplyIsNew(s, m.event);
    } else {
      MainKeepsReplies(s, m.event);
    }
  }

  lemma ReplyIsNew(s: State, e: Event)
    requires Safe(s) && s.active.Some? && WorkerStep(s, e).Some?
    ensures forall n :: n in WorkerStep(s, e).value.past.replies ==> n in s.past.replies || Wired(s, n)
  {
    if !Locking(s.worker) && !Writing(s.worker) {
      WorkerActOnly(s, e);
    }
  }

  lemma MainKeepsReplies(s: State, e: Event)
    requires MainStep(s, e).Some?
    ensures MainStep(s, e).value.past.replies == s.past.replies
  {
  }

  // ----- Every statement, and every run

  lemma WorkerTells(s: State, e: Event)
    requires Safe(s) && Telling(s) && s.active.Some? && WorkerStep(s, e).Some?
    ensures Telling(WorkerStep(s, e).value)
  {
    var t := WorkerStep(s, e).value;
    if Locking(s.worker) {
      WorkerLockTells(s);
      SameFilesTell(s, t);
    } else if Writing(s.worker) {
      WorkerWriteTells(s);
      WorkerWriteSame(s);
    } else {
      WorkerActTellsActive(s, e);
      WorkerActTellsMain(s, e);
      WorkerActSame(s, e);
    }
    AllTellSame(s, t);
  }

  lemma MainWriteKeepsTelling(s: State)
    requires Safe(s) && Telling(s) && s.active.Some? && MainWrite(s, s.active.value).Some?
    ensures Telling(MainWrite(s, s.active.value).value)
  {
    MainWriteTells(s);
    MainWriteAllTell(s);
  }

  /** Between two attempts, and around the session's call. */
  lemma OuterTells(s: State, e: Event)
    requires Safe(s) && Telling(s) && (s.main.Ready? || s.main.Authorized? || s.main.Waiting?) && MainStep(s, e).Some?
    ensures Telling(MainStep(s, e).value)
  {
    if s.main.Ready? {
      ReadyTells(s, e);
      ReadySame(s, e);
    } else {
      SessionTells(s, e);
      SessionSame(s, e);
    }
    AllTellSame(s, MainStep(s, e).value);
  }

  lemma ClosingTells(s: State)
    requires Telling(s) && s.main.HoldFinal?
    ensures Telling(s.(closed := true, main := HoldEnd))
  {
    var t := s.(closed := true, main := HoldEnd);
    SameAttemptTells(s, t);
    AllTellSame(s, t);
  }

  lemma DecideKeepsTelling(s: State)
    requires Safe(s) && Telling(s) && s.active.Some? && MainDecide(s, s.active.value).Some?
    ensures Telling(MainDecide(s, s.active.value).value)
  {
    DecideTells(s);
    AllTellSame(s, MainDecide(s, s.active.value).value);
  }

  lemma LockKeepsTelling(s: State)
    requires Telling(s) && MainLock(s).Some?
    ensures Telling(MainLock(s).value)
  {
    MainLockTells(s);
    AllTellSame(s, MainLock(s).value);
  }

  lemma SealKeepsTelling(s: State)
    requires Telling(s) && SealStep(s).Some?
    ensures Telling(SealStep(s).value)
  {
    SealTells(s);
    SealSame(s);
    AllTellSame(s, SealStep(s).value);
  }

  lemma MainTellsOn(s: State, e: Event)
    requires Safe(s) && Telling(s) && MainStep(s, e).Some?
    ensures Telling(MainStep(s, e).value)
  {
    match s.main
    case Ready | Authorized | Waiting => OuterTells(s, e);
    case ReturnWant | HoldDone | FinalWant | HoldEnd => LockKeepsTelling(s);
    case HoldReturn => DecideKeepsTelling(s);
    case HoldFinal => if s.active.Some? { DecideKeepsTelling(s); } else { ClosingTells(s); }
    case HoldTerminal(_, _) | HoldCutoff | HoldLast(_) => MainWriteKeepsTelling(s);
    case Completing | Sealing => SealKeepsTelling(s);
  }

  lemma StepTells(s: State, m: Move)
    requires Safe(s) && Telling(s) && Step(s, m).Some?
    ensures Telling(Step(s, m).value)
  {
    if m.thread == MainThread {
      MainTellsOn(s, m.event);
    } else {
      WorkerTells(s, m.event);
    }
  }

  lemma {:induction false} RunTells(moves: seq<Move>)
    requires Run(INITIAL, moves).Some?
    ensures Telling(Run(INITIAL, moves).value) && RepliesWired(Run(INITIAL, moves).value)
  {
    if moves != [] {
      RunTells(moves[..|moves| - 1]);
      ReachableIsSafe(moves[..|moves| - 1]);
      StepTells(Run(INITIAL, moves[..|moves| - 1]).value, moves[|moves| - 1]);
      RepliesStayWired(Run(INITIAL, moves[..|moves| - 1]).value, moves[|moves| - 1]);
    }
  }

  // ----- What the classes mean

  /** An answer that was received decides alone, an error first; without one only a rejection before the SDK does. */
  lemma ClassifyIff(e: Evidence)
    ensures var error := e.received && (e.providerError || exists code :: e.status == Some(code) && code >= 400);
            && (Classify(e) == SentFailed <==> error)
            && (Classify(e) == SentSucceeded <==> e.received && e.identified && !error)
            && (Classify(e) == NotSent <==>
                  !e.sdkEntered && e.rejection != None && !error && !(e.received && e.identified))
  {
  }

  // ----- What a reader of the terminals may rely on

  /** The reply is an error: the provider says so, or the status does. */
  predicate Failing(r: Reply) {
    r.received && (r.providerError || (r.status.Some? && r.status.value >= 400))
  }

  predicate Succeeding(r: Reply) {
    r.received && r.identified && !r.providerError && (r.status.None? || r.status.value < 400)
  }

  /**
   Over any interleaving from the start, a terminal is exactly as good as what happened. Unless the main thread gave up
   on the ticket: it is classified as not sent exactly when the SDK was never entered, as a failure exactly when an
   error came back, and as a success exactly when an identified answer without an error did; and it has the whole reply.
   When the main thread gave up, the outcome is unknown for good.
   */
  lemma {:induction false} TerminalIsReply(moves: seq<Move>, n: nat)
    requires Run(INITIAL, moves).Some? && Terminal(n) in Run(INITIAL, moves).value.store.dir
    ensures Run(INITIAL, moves).value.store.dir[Terminal(n)].Attempt?
    ensures var s := Run(INITIAL, moves).value;
            var e, gaveUp, wired := s.store.dir[Terminal(n)].evidence, GaveUpOn(s.past.endings, n), Wired(s, n);
            && (Classify(e) == NotSent <==> !gaveUp && !wired)
            && (Classify(e) == SentFailed <==> !gaveUp && n in s.past.replies && Failing(s.past.replies[n]))
            && (Classify(e) == SentSucceeded <==> !gaveUp && n in s.past.replies && Succeeding(s.past.replies[n]))
            && (!gaveUp && wired ==> n in s.past.replies && Says(e, s.past.replies[n]))
            && (e.sdkEntered <==> wired)
  {
    RunTells(moves);
  }

  /** A reply whose worker the main thread saw finish is in the terminal, word for word. */
  lemma {:induction false} SeenReplyIsKept(moves: seq<Move>, n: nat)
    requires Run(INITIAL, moves).Some? && Terminal(n) in Run(INITIAL, moves).value.store.dir
    requires var h := Run(INITIAL, moves).value.past; n in h.replies && n in h.endings && h.endings[n] == SawDone
    ensures var s := Run(INITIAL, moves).value;
            s.store.dir[Terminal(n)].Attempt? && Says(s.store.dir[Terminal(n)].evidence, s.past.replies[n])
  {
    RunTells(moves);
    TerminalIsReply(moves, n);
  }
}
