/** What every interleaving of a sealed run keeps. */
module SealedSafety {
  import opened Basics
  import opened SealedRun

  type Dir = map<File, Content>

  predicate MainHolds(main: MainPc) {
    main.HoldReturn? || main.HoldTerminal? || main.HoldCutoff? || main.HoldDone? || main.HoldFinal? || main.HoldLast?
        || main.HoldEnd?
  }

  predicate WorkerHolds(worker: WorkerPc) {
    worker.HoldWire? || worker.Refused? || worker.Recorded? || worker.Entered? || worker.Hold? || worker.Written?
  }

  /** The active ticket's terminal is not written yet. */
  predicate BeforeTerminal(main: MainPc) {
    main.Authorized? || main.Waiting? || main.ReturnWant? || main.HoldReturn? || main.HoldTerminal? || main.HoldLast?
  }

  predicate Returning(main: MainPc) {
    main.ReturnWant? || main.HoldReturn? || main.HoldTerminal? || main.HoldCutoff? || main.HoldDone?
  }

  predicate Ended(main: MainPc) {
    main.HoldLast? || main.HoldEnd? || main.Completing? || main.Sealing? || main.Finished?
  }

  predicate BeforeWire(worker: WorkerPc) {
    worker.Mapping? || worker.WantWire? || worker.HoldWire?
  }

  // ----- Control: who holds the lock, who runs, and when the run counts as closed

  predicate LockHeld(s: State) {
    (s.lock == ByMain <==> MainHolds(s.main)) && (s.lock == ByWorker <==> WorkerHolds(s.worker))
  }

  predicate Engaged(s: State) {
    && (s.active.None? <==> s.count == 0) && (s.active.Some? ==> s.active.value.ticket == s.count)
    && (BeforeTerminal(s.main) || Returning(s.main) || !s.worker.Off? ==> s.active.Some?)
  }

  /** The worker outlives the main thread's wait only after a timeout, and nothing is authorized after one. */
  predicate Timing(s: State) {
    && (s.timedOut ==> s.stopped && !s.main.Authorized? && !s.main.Waiting?)
    && (!s.timedOut && !s.main.Waiting? ==> s.worker.Off?)
    && (s.main.HoldReturn? || s.main.ReturnWant? ==> !s.closed)
    && (s.timedOut && !s.closed ==> s.main.ReturnWant? || s.main.HoldReturn?)
    && (s.closed && !s.timedOut ==> Ended(s.main))
    && (Ended(s.main) ==> s.closed)
    && (s.main.HoldCutoff? || (s.main.HoldTerminal? && s.main.cutoff) ==> s.timedOut)
  }

  predicate Control(s: State) {
    LockHeld(s) && Engaged(s) && Timing(s)
  }

  /** Whether the active ticket has its terminal. */
  predicate Settlement(s: State) {
    && (BeforeTerminal(s.main) ==> Terminal(s.count) !in s.store.dir)
    && (s.active.Some? && !BeforeTerminal(s.main) && (s.timedOut || !(s.main.FinalWant? || s.main.HoldFinal?)) ==>
          Terminal(s.count) in s.store.dir)
  }

  /** What the worker has done to the active ticket. */
  predicate Attempting(s: State) {
    s.active.Some? ==>
      var a := s.active.value;
      && (!s.worker.Recorded? ==> (a.sdkEntered <==> WireRequest(s.count) in s.store.dir))
      && (s.worker.Recorded? ==> !a.sdkEntered && WireRequest(s.count) in s.store.dir)
      && (s.worker.Recorded? || s.worker.Entered? ==> !s.closed)
      && (BeforeWire(s.worker) || s.worker.Refused? ==> !a.sdkEntered)
      && (s.worker.Refused? ==> s.closed)
      && (s.worker.Entered? || s.worker.ReadyToSend? || s.worker.InSdk? ==> a.sdkEntered)
      && (BeforeWire(s.worker) || s.worker.Recorded? ==> a.evidence.None?)
      && (s.main.Authorized? ==> !a.sdkEntered && a.evidence.None?)
  }

  // ----- Evidence

  /** Evidence about ticket `n` tells the truth. */
  predicate Truthful(dir: Dir, answered: set<nat>, n: nat, e: Evidence) {
    && (e.sdkEntered <==> WireRequest(n) in dir)
    && (e.received ==> n in answered)
    && (e.rejection.Some? ==> !e.sdkEntered)
  }

  predicate AllTruthful(dir: Dir, answered: set<nat>, n: nat, e: Option<Evidence>) {
    e.Some? ==> Truthful(dir, answered, n, e.value)
  }

  function ReceiptEvidence(r: Receipt): Option<Evidence> {
    if r.Wire? then Some(r.evidence) else None
  }

  /** The evidence a thread is about to use. */
  function WorkerEvidence(worker: WorkerPc): Option<Evidence> {
    match worker
    case SetEvidence(e) => Some(e)
    case Want(r) => ReceiptEvidence(r)
    case Hold(r) => ReceiptEvidence(r)
    case Written(r) => ReceiptEvidence(r)
    case _ => None
  }

  function MainEvidence(main: MainPc): Option<Evidence> {
    match main
    case HoldTerminal(e, _) => Some(e)
    case HoldLast(e) => Some(e)
    case _ => None
  }

  predicate EvidenceTrue(s: State) {
    && (s.active.Some? ==> AllTruthful(s.store.dir, s.past.answered, s.count, s.active.value.evidence))
    && AllTruthful(s.store.dir, s.past.answered, s.count, WorkerEvidence(s.worker))
    && AllTruthful(s.store.dir, s.past.answered, s.count, MainEvidence(s.main))
  }

  /** Later evidence of the same attempt is as true as what it is made from. */
  lemma DerivedTruthful(dir: Dir, answered: set<nat>, a: Active)
    requires (a.sdkEntered <==> WireRequest(a.ticket) in dir) && AllTruthful(dir, answered, a.ticket, a.evidence)
    ensures Truthful(dir, answered, a.ticket, Merged(a)) && Truthful(dir, answered, a.ticket, Settled(a))
    ensures Truthful(dir, answered, a.ticket, Bare(a.sdkEntered))
  {
  }

  // ----- The two directories

  /** Every earlier ticket has its terminal, and every terminal tells the truth about its ticket. */
  ghost predicate TerminalsTrue(dir: Dir, count: nat, answered: set<nat>) {
    && (forall n: nat :: 1 <= n < count ==> Terminal(n) in dir)
    && (forall n: nat :: Terminal(n) in dir ==>
          1 <= n <= count && dir[Terminal(n)].Attempt? && Truthful(dir, answered, n, dir[Terminal(n)].evidence))
  }

  /** A transport only starts for a recorded wire request, and a response only comes after it started. */
  ghost predicate SendingRecorded(dir: Dir, sent: set<nat>, answered: set<nat>) {
    (forall n :: n in sent ==> WireRequest(n) in dir) && answered <= sent
  }

  predicate BeforeSend(worker: WorkerPc) {
    BeforeWire(worker) || worker.Recorded? || worker.Entered? || worker.ReadyToSend?
  }

  /** The active ticket's transport starts once, when the worker is ready to send. */
  predicate SendTiming(s: State) {
    && (s.worker.InSdk? ==> s.count in s.past.sent)
    && (s.main.Authorized? || BeforeSend(s.worker) ==> s.count !in s.past.sent)
  }

  /** Receipts are written in the order 3, 2, 1; other files are none. */
  function Stage(f: File): nat {
    match f
    case WireReceipt(_, _) => 3
    case ModelOutput(_) => 2
    case Normalization(_) => 1
    case _ => 0
  }

  predicate Known(count: nat, batches: nat, f: File) {
    match f
    case Discovery(b) => b < batches
    case Completion => true
    case Listing => true
    case _ => f.n <= count
  }

  /** Nothing is written for a ticket or a batch to come. */
  ghost predicate AllKnown(store: Store, count: nat, batches: nat) {
    && (forall f :: f in store.dir ==> Known(count, batches, f))
    && (forall f :: LateReceipt(f) in store.late ==> Stage(f) > 0 && f.n <= count)
  }

  function ReceiptStage(r: Receipt): nat {
    match r
    case Wire(_, _) => 3
    case Model => 2
    case Normal => 1
  }

  /** The highest stage the worker may still write for its ticket. */
  function Left(worker: WorkerPc): nat {
    match worker
    case Off | Done => 0
    case Want(r) => ReceiptStage(r)
    case Hold(r) => ReceiptStage(r)
    case Written(r) => ReceiptStage(r) - 1
    case SetEvidence(_) => 2
    case Merge => 1
    case _ => 3
  }

  function LeftIn(s: State): nat {
    if s.main.Authorized? then 3 else Left(s.worker)
  }

  /** The receipts still to come are written nowhere yet. */
  ghost predicate Upcoming(store: Store, count: nat, left: nat) {
    forall f :: 0 < Stage(f) <= left && f.n == count ==> f !in store.dir && LateReceipt(f) !in store.late
  }

  function TicketOf(l: LateFile): Option<nat> {
    match l
    case AtCutoff(n) => Some(n)
    case LateReceipt(f) => if Stage(f) > 0 then Some(f.n) else None
  }

  /** Every late receipt names the terminal of its ticket. */
  ghost predicate LateTrue(store: Store) {
    forall l :: l in store.late ==>
                  && TicketOf(l).Some? && Terminal(TicketOf(l).value) in store.dir
                  && store.late[l] == store.dir[Terminal(TicketOf(l).value)]
  }

  /** There are no late receipts before the run is closed, and no cutoff receipt before the cutoff. */
  predicate LateTiming(s: State) {
    && (s.store.late != map[] ==> s.closed)
    && ((s.main.HoldTerminal? && s.main.cutoff) || s.main.HoldCutoff? ==> AtCutoff(s.count) !in s.store.late)
  }

  /** Once written, the listing names exactly the other files. */
  predicate Listed(s: State) {
    && (Completion in s.store.dir ==> s.main.Sealing? || s.main.Finished?)
    && (Listing in s.store.dir ==> s.main.Finished?)
    && (s.main.Finished? ==> Listing in s.store.dir && s.store.dir[Listing] == Files(s.store.dir.Keys - {Listing}))
  }

  ghost predicate StoreTrue(s: State) {
    && TerminalsTrue(s.store.dir, s.count, s.past.answered)
    && SendingRecorded(s.store.dir, s.past.sent, s.past.answered)
    && AllKnown(s.store, s.count, s.batches) && Upcoming(s.store, s.count, LeftIn(s)) && LateTrue(s.store)
  }

  /** Where the two threads stand, and what that says about the active ticket. */
  predicate Placed(s: State) {
    Control(s) && Settlement(s) && Attempting(s)
  }

  /** What they are about to write is true and was not written before. */
  predicate Recording(s: State) {
    EvidenceTrue(s) && SendTiming(s) && LateTiming(s) && Listed(s) && !s.store.fault
  }

  /** Everything about one moment that needs no look over all files. */
  predicate Flags(s: State) {
    Placed(s) && Recording(s)
  }

  ghost predicate Safe(s: State) {
    Flags(s) && StoreTrue(s)
  }

  /** The flags, and no file written ahead of its time. */
  ghost predicate Tidy(s: State) {
    Flags(s) && AllKnown(s.store, s.count, s.batches) && Upcoming(s.store, s.count, LeftIn(s))
  }

  // ----- What one new file keeps

  predicate Ordinary(f: File) {
    !f.Terminal? && !f.WireRequest?
  }

  lemma OrdinaryFile(dir: Dir, count: nat, answered: set<nat>, sent: set<nat>, f: File, c: Content)
    requires TerminalsTrue(dir, count, answered) && SendingRecorded(dir, sent, answered) && Ordinary(f)
    ensures TerminalsTrue(dir[f := c], count, answered) && SendingRecorded(dir[f := c], sent, answered)
  {
  }

  lemma NewWire(dir: Dir, count: nat, answered: set<nat>, sent: set<nat>)
    requires TerminalsTrue(dir, count, answered) && SendingRecorded(dir, sent, answered) && Terminal(count) !in dir
    ensures TerminalsTrue(dir[WireRequest(count) := Plain], count, answered)
    ensures SendingRecorded(dir[WireRequest(count) := Plain], sent, answered)
  {
  }

  lemma NewTerminal(dir: Dir, count: nat, answered: set<nat>, sent: set<nat>, e: Evidence)
    requires TerminalsTrue(dir, count, answered) && SendingRecorded(dir, sent, answered) && count > 0
    requires Truthful(dir, answered, count, e)
    ensures TerminalsTrue(dir[Terminal(count) := Attempt(e)], count, answered)
    ensures SendingRecorded(dir[Terminal(count) := Attempt(e)], sent, answered)
  {
  }

  lemma NewLate(store: Store, l: LateFile, n: nat)
    requires LateTrue(store) && TicketOf(l) == Some(n) && Terminal(n) in store.dir && l !in store.late
    ensures LateTrue(CreateLate(store, l, n))
  {
  }

  lemma NewFileLate(store: Store, f: File, c: Content)
    requires LateTrue(store) && f !in store.dir
    ensures LateTrue(Create(store, f, c))
  {
  }

  lemma UpcomingFrame(store: Store, count: nat, left: nat, store': Store, left': nat, file: File)
    requires Upcoming(store, count, left) && left' <= left
    requires store'.dir.Keys <= store.dir.Keys + {file}
    requires forall f :: LateReceipt(f) in store'.late ==> LateReceipt(f) in store.late || f == file
    requires Stage(file) == 0 || Stage(file) > left'
    ensures Upcoming(store', count, left')
  {
    forall f | 0 < Stage(f) <= left' && f.n == count ensures f !in store'.dir && LateReceipt(f) !in store'.late {
      assert f !in store.dir.Keys && f != file;
    }
  }

  // ----- Every worker statement keeps it

  lemma WorkerLockKeepsControl(s: State)
    requires Flags(s) && WorkerLock(s).Some?
    ensures Control(WorkerLock(s).value)
  {
  }

  lemma WorkerLockKeepsAttempting(s: State)
    requires Flags(s) && WorkerLock(s).Some?
    ensures Settlement(WorkerLock(s).value) && Attempting(WorkerLock(s).value)
  {
  }

  lemma WorkerLockKeepsRecording(s: State)
    requires Flags(s) && WorkerLock(s).Some?
    ensures Recording(WorkerLock(s).value)
  {
  }

  lemma WorkerLockKeepsFlags(s: State)
    requires Flags(s) && WorkerLock(s).Some?
    ensures Flags(WorkerLock(s).value)
  {
    WorkerLockKeepsControl(s);
    WorkerLockKeepsAttempting(s);
    WorkerLockKeepsRecording(s);
  }

  /** Taking or giving back the lock brings the worker no nearer to an earlier receipt. */
  lemma WorkerLockLeft(s: State)
    requires WorkerLock(s).Some?
    ensures var t := WorkerLock(s).value;
            && t.store == s.store && t.count == s.count && t.batches == s.batches && t.past.sent == s.past.sent
            && t.past.answered == s.past.answered && t.main == s.main && Left(t.worker) <= Left(s.worker)
  {
  }

  lemma UpcomingLess(store: Store, count: nat, left: nat, left': nat)
    requires Upcoming(store, count, left) && left' <= left
    ensures Upcoming(store, count, left')
  {
  }

  lemma WorkerLockKeepsStore(s: State)
    requires Control(s) && StoreTrue(s) && WorkerLock(s).Some?
    ensures StoreTrue(WorkerLock(s).value)
  {
    WorkerLockLeft(s);
    UpcomingLess(s.store, s.count, LeftIn(s), LeftIn(WorkerLock(s).value));
  }

  lemma WorkerWriteKeepsPlaced(s: State)
    requires Tidy(s) && s.active.Some? && WorkerWrite(s, s.active.value).Some?
    ensures Placed(WorkerWrite(s, s.active.value).value)
  {
  }

  lemma WireKeepsRecording(s: State)
    requires Tidy(s) && s.active.Some? && s.worker.HoldWire? && WorkerWrite(s, s.active.value).Some?
    ensures Recording(WorkerWrite(s, s.active.value).value)
  {
  }

  lemma ReceiptKeepsRecording(s: State)
    requires Tidy(s) && s.active.Some? && s.worker.Hold? && WorkerWrite(s, s.active.value).Some?
    ensures Recording(WorkerWrite(s, s.active.value).value)
  {
  }

  lemma WorkerWriteKeepsFlags(s: State)
    requires Tidy(s) && s.active.Some? && WorkerWrite(s, s.active.value).Some?
    ensures Flags(WorkerWrite(s, s.active.value).value)
  {
    WorkerWriteKeepsPlaced(s);
    if s.worker.HoldWire? {
      WireKeepsRecording(s);
    } else {
      ReceiptKeepsRecording(s);
    }
  }

  lemma WorkerWriteKeepsStore(s: State)
    requires Flags(s) && StoreTrue(s) && s.active.Some? && WorkerWrite(s, s.active.value).Some?
    ensures StoreTrue(WorkerWrite(s, s.active.value).value)
  {
    var t, left := WorkerWrite(s, s.active.value).value, LeftIn(s);
    if s.worker.HoldWire? {
      if !s.closed {
        NewWire(s.store.dir, s.count, s.past.answered, s.past.sent);
        NewFileLate(s.store, WireRequest(s.count), Plain);
      }
      UpcomingFrame(s.store, s.count, left, t.store, LeftIn(t), WireRequest(s.count));
    } else {
      var f := FileOf(s.worker.receipt, s.count);
      if s.closed {
        NewLate(s.store, LateReceipt(f), s.count);
      } else {
        OrdinaryFile(s.store.dir, s.count, s.past.answered, s.past.sent, f, Plain);
        NewFileLate(s.store, f, Plain);
      }
      UpcomingFrame(s.store, s.count, left, t.store, LeftIn(t), f);
    }
  }

  lemma WorkerActKeepsControl(s: State, e: Event)
    requires Control(s) && s.active.Some? && WorkerAct(s, s.active.value, e).Some?
    ensures Control(WorkerAct(s, s.active.value, e).value)
  {
  }

  lemma WorkerActKeepsSettlement(s: State, e: Event)
    requires Control(s) && Settlement(s) && s.active.Some? && WorkerAct(s, s.active.value, e).Some?
    ensures Settlement(WorkerAct(s, s.active.value, e).value)
  {
  }

  lemma WorkerActKeepsAttempting(s: State, e: Event)
    requires Control(s) && Attempting(s) && EvidenceTrue(s) && s.active.Some? && WorkerAct(s, s.active.value, e).Some?
    ensures Attempting(WorkerAct(s, s.active.value, e).value)
  {
  }

  lemma WorkerActKeepsEvidence(s: State, e: Event)
    requires Control(s) && Attempting(s) && EvidenceTrue(s) && s.active.Some? && WorkerAct(s, s.active.value, e).Some?
    ensures EvidenceTrue(WorkerAct(s, s.active.value, e).value)
  {
    if s.worker.Merge? {
      DerivedTruthful(s.store.dir, s.past.answered, s.active.value);
    }
  }

  lemma WorkerActKeepsSending(s: State, e: Event)
    requires Control(s) && SendTiming(s) && s.active.Some? && WorkerAct(s, s.active.value, e).Some?
    ensures SendTiming(WorkerAct(s, s.active.value, e).value)
  {
  }

  lemma WorkerActKeepsStored(s: State, e: Event)
    requires LateTiming(s) && Listed(s) && !s.store.fault && s.active.Some? && WorkerAct(s, s.active.value, e).Some?
    ensures var t := WorkerAct(s, s.active.value, e).value; LateTiming(t) && Listed(t) && !t.store.fault
  {
  }

  lemma WorkerActKeepsFlags(s: State, e: Event)
    requires Flags(s) && s.active.Some? && WorkerAct(s, s.active.value, e).Some?
    ensures Flags(WorkerAct(s, s.active.value, e).value)
  {
    WorkerActKeepsControl(s, e);
    WorkerActKeepsSettlement(s, e);
    WorkerActKeepsAttempting(s, e);
    WorkerActKeepsEvidence(s, e);
    WorkerActKeepsSending(s, e);
    WorkerActKeepsStored(s, e);
  }

  lemma MoreAnswered(dir: Dir, count: nat, answered: set<nat>, answered': set<nat>)
    requires TerminalsTrue(dir, count, answered) && answered <= answered'
    ensures TerminalsTrue(dir, count, answered')
  {
  }

  lemma ActLeft(s: State, e: Event)
    requires !s.worker.Off? && s.active.Some? && WorkerAct(s, s.active.value, e).Some?
    ensures var t := WorkerAct(s, s.active.value, e).value;
            Left(t.worker) <= Left(s.worker) && t.store == s.store && t.main == s.main && t.count == s.count
                && t.batches == s.batches
  {
  }

  lemma ActSends(s: State, e: Event)
    requires Flags(s) && SendingRecorded(s.store.dir, s.past.sent, s.past.answered) && s.active.Some?
             && WorkerAct(s, s.active.value, e).Some?
    ensures var t := WorkerAct(s, s.active.value, e).value;
            s.past.answered <= t.past.answered && SendingRecorded(s.store.dir, t.past.sent, t.past.answered)
  {
  }

  lemma WorkerActKeepsStore(s: State, e: Event)
    requires Flags(s) && StoreTrue(s) && s.active.Some? && WorkerAct(s, s.active.value, e).Some?
    ensures StoreTrue(WorkerAct(s, s.active.value, e).value)
  {
    var t := WorkerAct(s, s.active.value, e).value;
    ActLeft(s, e);
    ActSends(s, e);
    MoreAnswered(s.store.dir, s.count, s.past.answered, t.past.answered);
    UpcomingFrame(s.store, s.count, LeftIn(s), t.store, LeftIn(t), Completion);
  }

  // ----- Every main statement keeps it

  lemma ReadyKeepsPlaced(s: State, e: Event)
    requires Tidy(s) && s.main.Ready? && ReadyStep(s, e).Some?
    ensures Placed(ReadyStep(s, e).value)
  {
  }

  lemma ReadyKeepsRecording(s: State, e: Event)
    requires Tidy(s) && SendingRecorded(s.store.dir, s.past.sent, s.past.answered)
    requires s.main.Ready? && ReadyStep(s, e).Some?
    ensures Recording(ReadyStep(s, e).value)
  {
  }

  lemma ReadyKeepsFlags(s: State, e: Event)
    requires Tidy(s) && SendingRecorded(s.store.dir, s.past.sent, s.past.answered)
    requires s.main.Ready? && ReadyStep(s, e).Some?
    ensures Flags(ReadyStep(s, e).value)
  {
    ReadyKeepsPlaced(s, e);
    ReadyKeepsRecording(s, e);
  }

  /** A new ordinary file of a ticket or batch that is known keeps what the store says about `count` tickets. */
  lemma NewOrdinary(s: State, store: Store, f: File, count: nat)
    requires Flags(s) && StoreTrue(s) && Ordinary(f) && f !in s.store.dir && store == Create(s.store, f, Plain)
    requires count == s.count || (count == s.count + 1 && Terminal(s.count) in s.store.dir)
             || (count == 1 && s.count == 0)
    ensures TerminalsTrue(store.dir, count, s.past.answered) && SendingRecorded(store.dir, s.past.sent, s.past.answered)
            && LateTrue(store)
  {
    OrdinaryFile(s.store.dir, s.count, s.past.answered, s.past.sent, f, Plain);
    NewFileLate(s.store, f, Plain);
  }

  lemma ReserveKeepsStore(s: State)
    requires Flags(s) && StoreTrue(s) && s.main.Ready? && ReadyStep(s, Reserve).Some?
    ensures StoreTrue(ReadyStep(s, Reserve).value)
  {
    NewOrdinary(s, Create(s.store, Reserved(s.count + 1), Plain), Reserved(s.count + 1), s.count + 1);
  }

  lemma BatchKeepsStore(s: State)
    requires Flags(s) && StoreTrue(s) && s.main.Ready? && ReadyStep(s, Batch).Some?
    ensures StoreTrue(ReadyStep(s, Batch).value)
  {
    var t := ReadyStep(s, Batch).value;
    NewOrdinary(s, t.store, Discovery(s.batches), s.count);
    UpcomingFrame(s.store, s.count, LeftIn(s), t.store, LeftIn(t), Discovery(s.batches));
  }

  lemma ReadyKeepsStore(s: State, e: Event)
    requires Flags(s) && StoreTrue(s) && s.main.Ready? && ReadyStep(s, e).Some?
    ensures StoreTrue(ReadyStep(s, e).value)
  {
    if e == Reserve {
      ReserveKeepsStore(s);
    } else if e == Batch {
      BatchKeepsStore(s);
    }
  }

  lemma SessionKeepsPlaced(s: State, e: Event)
    requires Tidy(s) && (s.main.Authorized? || s.main.Waiting?) && SessionStep(s, e).Some?
    ensures Placed(SessionStep(s, e).value)
  {
  }

  lemma SessionKeepsRecording(s: State, e: Event)
    requires Tidy(s) && (s.main.Authorized? || s.main.Waiting?) && SessionStep(s, e).Some?
    ensures Recording(SessionStep(s, e).value)
  {
  }

  lemma SessionKeepsFlags(s: State, e: Event)
    requires Tidy(s) && (s.main.Authorized? || s.main.Waiting?) && SessionStep(s, e).Some?
    ensures Flags(SessionStep(s, e).value)
  {
    SessionKeepsPlaced(s, e);
    SessionKeepsRecording(s, e);
  }

  lemma SessionKeepsStore(s: State, e: Event)
    requires Flags(s) && StoreTrue(s) && (s.main.Authorized? || s.main.Waiting?) && SessionStep(s, e).Some?
    ensures StoreTrue(SessionStep(s, e).value)
  {
  }

  lemma MainLockKeepsControl(s: State)
    requires Control(s) && Settlement(s) && MainLock(s).Some?
    ensures Control(MainLock(s).value)
  {
  }

  lemma MainLockKeepsAttempting(s: State)
    requires Placed(s) && MainLock(s).Some?
    ensures Settlement(MainLock(s).value) && Attempting(MainLock(s).value)
  {
  }

  lemma MainLockKeepsRecording(s: State)
    requires Tidy(s) && MainLock(s).Some?
    ensures Recording(MainLock(s).value)
  {
  }

  lemma MainLockKeepsFlags(s: State)
    requires Tidy(s) && MainLock(s).Some?
    ensures Flags(MainLock(s).value)
  {
    MainLockKeepsControl(s);
    MainLockKeepsAttempting(s);
    MainLockKeepsRecording(s);
  }

  lemma MainLockKeepsStore(s: State)
    requires Flags(s) && StoreTrue(s) && MainLock(s).Some?
    ensures StoreTrue(MainLock(s).value)
  {
  }

  lemma DecideKeepsPlaced(s: State)
    requires Tidy(s) && s.active.Some? && MainDecide(s, s.active.value).Some?
    ensures Placed(MainDecide(s, s.active.value).value)
  {
  }

  lemma DecideKeepsRecording(s: State)
    requires Tidy(s) && s.active.Some? && MainDecide(s, s.active.value).Some?
    ensures Recording(MainDecide(s, s.active.value).value)
  {
  }

  lemma DecideKeepsFlags(s: State)
    requires Tidy(s) && s.active.Some? && MainDecide(s, s.active.value).Some?
    ensures Flags(MainDecide(s, s.active.value).value)
  {
    DecideKeepsPlaced(s);
    DecideKeepsRecording(s);
  }

  lemma DecideKeepsStore(s: State)
    requires Flags(s) && StoreTrue(s) && s.active.Some? && MainDecide(s, s.active.value).Some?
    ensures StoreTrue(MainDecide(s, s.active.value).value)
  {
  }

  lemma MainWriteKeepsPlaced(s: State)
    requires Tidy(s) && s.active.Some? && MainWrite(s, s.active.value).Some?
    ensures Placed(MainWrite(s, s.active.value).value)
  {
  }

  lemma MainWriteKeepsRecording(s: State)
    requires Tidy(s) && s.active.Some? && MainWrite(s, s.active.value).Some?
    ensures Recording(MainWrite(s, s.active.value).value)
  {
  }

  lemma MainWriteKeepsFlags(s: State)
    requires Tidy(s) && s.active.Some? && MainWrite(s, s.active.value).Some?
    ensures Flags(MainWrite(s, s.active.value).value)
  {
    MainWriteKeepsPlaced(s);
    MainWriteKeepsRecording(s);
  }

  lemma MainWriteKeepsStore(s: State)
    requires Flags(s) && StoreTrue(s) && s.active.Some? && MainWrite(s, s.active.value).Some?
    ensures StoreTrue(MainWrite(s, s.active.value).value)
  {
    var t := MainWrite(s, s.active.value).value;
    if s.main.HoldCutoff? {
      NewLate(s.store, AtCutoff(s.count), s.count);
    } else {
      NewTerminal(s.store.dir, s.count, s.past.answered, s.past.sent, s.main.evidence);
      NewFileLate(s.store, Terminal(s.count), Attempt(s.main.evidence));
    }
    UpcomingFrame(s.store, s.count, LeftIn(s), t.store, LeftIn(t), Terminal(s.count));
  }

  lemma SealKeepsPlaced(s: State)
    requires Tidy(s) && SealStep(s).Some?
    ensures Placed(SealStep(s).value)
  {
  }

  lemma CompletionKeepsRecording(s: State)
    requires Tidy(s) && s.main.Completing? && SealStep(s).Some?
    ensures Recording(SealStep(s).value)
  {
  }

  lemma ListingKeepsRecording(s: State)
    requires Tidy(s) && s.main.Sealing? && SealStep(s).Some?
    ensures Recording(SealStep(s).value)
  {
  }

  lemma SealKeepsFlags(s: State)
    requires Tidy(s) && SealStep(s).Some?
    ensures Flags(SealStep(s).value)
  {
    SealKeepsPlaced(s);
    if s.main.Completing? {
      CompletionKeepsRecording(s);
    } else {
      ListingKeepsRecording(s);
    }
  }

  lemma SealKeepsStore(s: State)
    requires Flags(s) && StoreTrue(s) && SealStep(s).Some?
    ensures StoreTrue(SealStep(s).value)
  {
    var t, f := SealStep(s).value, if s.main.Completing? then Completion else Listing;
    OrdinaryFile(s.store.dir, s.count, s.past.answered, s.past.sent, f, t.store.dir[f]);
    NewFileLate(s.store, f, t.store.dir[f]);
    UpcomingFrame(s.store, s.count, LeftIn(s), t.store, LeftIn(t), f);
  }

  // ----- Every statement, and every run

  lemma WorkerKeepsSafe(s: State, e: Event)
    requires Safe(s) && s.active.Some? && WorkerStep(s, e).Some?
    ensures Safe(WorkerStep(s, e).value)
  {
    if Locking(s.worker) {
      WorkerLockKeepsFlags(s);
      WorkerLockKeepsStore(s);
    } else if Writing(s.worker) {
      WorkerWriteKeepsFlags(s);
      WorkerWriteKeepsStore(s);
    } else {
      WorkerActKeepsFlags(s, e);
      WorkerActKeepsStore(s, e);
    }
  }

  /** A run that ends before any ticket was reserved. */
  lemma UnusedKeepsSafe(s: State)
    requires Safe(s) && s.main.HoldFinal? && s.active.None?
    ensures Safe(s.(closed := true, main := HoldEnd))
  {
  }

  lemma MainLockKeepsSafe(s: State)
    requires Safe(s) && MainLock(s).Some?
    ensures Safe(MainLock(s).value)
  {
    MainLockKeepsFlags(s);
    MainLockKeepsStore(s);
  }

  lemma DecideKeepsSafe(s: State)
    requires Safe(s) && s.active.Some? && MainDecide(s, s.active.value).Some?
    ensures Safe(MainDecide(s, s.active.value).value)
  {
    DecideKeepsFlags(s);
    DecideKeepsStore(s);
  }

  lemma MainWriteKeepsSafe(s: State)
    requires Safe(s) && s.active.Some? && MainWrite(s, s.active.value).Some?
    ensures Safe(MainWrite(s, s.active.value).value)
  {
    MainWriteKeepsFlags(s);
    MainWriteKeepsStore(s);
  }

  lemma SealKeepsSafe(s: State)
    requires Safe(s) && SealStep(s).Some?
    ensures Safe(SealStep(s).value)
  {
    SealKeepsFlags(s);
    SealKeepsStore(s);
  }

  /** Between two attempts, and around the session's call. */
  lemma OuterKeepsSafe(s: State, e: Event)
    requires Safe(s) && (s.main.Ready? || s.main.Authorized? || s.main.Waiting?) && MainStep(s, e).Some?
    ensures Safe(MainStep(s, e).value)
  {
    if s.main.Ready? {
      ReadyKeepsFlags(s, e);
      ReadyKeepsStore(s, e);
    } else {
      SessionKeepsFlags(s, e);
      SessionKeepsStore(s, e);
    }
  }

  lemma MainKeepsSafe(s: State, e: Event)
    requires Safe(s) && MainStep(s, e).Some?
    ensures Safe(MainStep(s, e).value)
  {
    match s.main
    case Ready | Authorized | Waiting => OuterKeepsSafe(s, e);
    case ReturnWant | HoldDone | FinalWant | HoldEnd => MainLockKeepsSafe(s);
    case HoldReturn => DecideKeepsSafe(s);
    case HoldFinal => if s.active.Some? { DecideKeepsSafe(s); } else { UnusedKeepsSafe(s); }
    case HoldTerminal(_, _) | HoldCutoff | HoldLast(_) => MainWriteKeepsSafe(s);
    case Completing | Sealing => SealKeepsSafe(s);
  }

  lemma StepKeepsSafe(s: State, m: Move)
    requires Safe(s) && Step(s, m).Some?
    ensures Safe(Step(s, m).value)
  {
    if m.thread == MainThread {
      MainKeepsSafe(s, m.event);
    } else {
      WorkerKeepsSafe(s, m.event);
    }
  }

  /** In every interleaving, at every moment. */
  lemma {:induction false} RunIsSafe(s: State, moves: seq<Move>)
    requires Safe(s) && Run(s, moves).Some?
    ensures Safe(Run(s, moves).value)
  {
    if moves != [] {
      RunIsSafe(s, moves[..|moves| - 1]);
      StepKeepsSafe(Run(s, moves[..|moves| - 1]).value, moves[|moves| - 1]);
    }
  }

  lemma InitiallySafe()
    ensures Safe(INITIAL)
  {
  }

  /** From the start of a run, whatever the two threads do and in whatever order. */
  lemma {:induction false} ReachableIsSafe(moves: seq<Move>)
    requires Run(INITIAL, moves).Some?
    ensures Safe(Run(INITIAL, moves).value)
  {
    InitiallySafe();
    RunIsSafe(INITIAL, moves);
  }
}
