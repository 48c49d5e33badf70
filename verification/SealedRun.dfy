/**
 A sealed run whose worker may come back late. The main thread reserves a ticket, lets a worker make the request and
 may give up waiting at any moment; a lock, a `closed` flag and a sibling directory for late receipts keep the sealed
 directory frozen. Every statement that touches shared state is a step of its own, and steps interleave freely.
 */
module SealedRun {
  import opened Basics

  const PLANNED_REQUESTS := 28

  // ----- Evidence about one attempt

  datatype Rejection = RequestMappingFailed | SourceOrBudgetGuard

  /** `received`: a response came; `identified`: it carries a nonblank response id. */
  datatype Evidence = Evidence(
    sdkEntered: bool, received: bool, status: Option<int>, providerError: bool, identified: bool,
    rejection: Option<Rejection>)

  datatype Outcome = SentSucceeded | SentFailed | NotSent | OutcomeUnknown

  /** Only a receipt proves sending and only a rejection before the transport proves the opposite. */
  function Classify(e: Evidence): Outcome {
    if e.received && (e.providerError || (e.status.Some? && e.status.value >= 400)) then SentFailed
    else if e.received && e.identified then SentSucceeded
    else if !e.sdkEntered && e.rejection.Some? then NotSent
    else OutcomeUnknown
  }

  function Bare(sdkEntered: bool): Evidence {
    Evidence(sdkEntered, false, None, false, false, None)
  }

  // ----- State

  /** The files of the sealed directory; `WireReceipt` is the response or the exception of a request. */
  datatype File =
    | Reserved(n: nat) | WireRequest(n: nat) | WireReceipt(n: nat, raised: bool) | ModelOutput(n: nat)
    | Normalization(n: nat) | Terminal(n: nat) | Discovery(batch: nat) | Completion | Listing

  datatype Content = Plain | Attempt(evidence: Evidence) | Files(listed: set<File>)

  /** The files of the sibling directory; each names the terminal it is late for by content. */
  datatype LateFile = LateReceipt(file: File) | AtCutoff(n: nat)

  datatype Active = Active(ticket: nat, sdkEntered: bool, evidence: Option<Evidence>)

  datatype Owner = Free | ByMain | ByWorker

  datatype Receipt = Wire(raised: bool, evidence: Evidence) | Model | Normal

  datatype WorkerPc =
    | Off | Mapping | WantWire | HoldWire | Refused | Recorded | Entered | ReadyToSend | InSdk
    | Want(receipt: Receipt) | Hold(receipt: Receipt) | Written(receipt: Receipt)
    | SetEvidence(evidence: Evidence) | Merge | Done

  datatype MainPc =
    | Ready | Authorized | Waiting | ReturnWant
    | HoldReturn | HoldTerminal(evidence: Evidence, cutoff: bool) | HoldCutoff | HoldDone
    | FinalWant | HoldFinal | HoldLast(evidence: Evidence) | HoldEnd | Completing | Sealing | Finished

  /**
   Both directories. `fault` is an exception nothing handles: an exclusive create that finds its path taken, or a late
   receipt whose terminal is missing.
   */
  datatype Store = Store(dir: map<File, Content>, late: map<LateFile, Content>, fault: bool)

  /** What came back of one request. */
  datatype Reply = Reply(received: bool, status: Option<int>, providerError: bool, identified: bool)

  /** How the session's call for one ticket ended for the main thread. */
  datatype Ending = CallRefused | GaveUp | SawDone

  /**
   What happened outside: the tickets whose transport started, those that came back with a response, what came back of
   each request, and how the session ended for each ticket.
   */
  datatype History = History(sent: set<nat>, answered: set<nat>, replies: map<nat, Reply>, endings: map<nat, Ending>)

  datatype State = State(
    main: MainPc, worker: WorkerPc, lock: Owner, closed: bool, timedOut: bool, stopped: bool,
    active: Option<Active>, count: nat, batches: nat, store: Store, past: History)

  const INITIAL := State(Ready, Off, Free, false, false, false, None, 0, 0, Store(map[], map[], false),
                         History({}, {}, map[], map[]))

  function Sent(h: History, n: nat): History {
    h.(sent := h.sent + {n})
  }

  function Replied(h: History, n: nat, r: Reply): History {
    h.(answered := if r.received then h.answered + {n} else h.answered, replies := h.replies[n := r])
  }

  function EndedWith(h: History, n: nat, ending: Ending): History {
    h.(endings := h.endings[n := ending])
  }

  // ----- Steps

  datatype Event =
    | Go                                   // the next statement of a thread that has only one
    | Unmappable | OffPlan                 // the adapter refuses before any transport
    | Answer(raised: bool, received: bool, status: Option<int>, providerError: bool, identified: bool)
    | Reserve | Batch | Finish             // what the main thread turns to next
    | SessionRefuses | StartWorker | Timeout | WorkerDone(failed: bool)

  function Create(s: Store, file: File, content: Content): Store {
    if file in s.dir then s.(fault := true) else s.(dir := s.dir[file := content])
  }

  function CreateLate(s: Store, file: LateFile, ticket: nat): Store {
    if file in s.late || Terminal(ticket) !in s.dir then s.(fault := true)
    else s.(late := s.late[file := s.dir[Terminal(ticket)]])
  }

  function Persist(s: Store, closed: bool, file: File, ticket: nat): Store {
    if closed then CreateLate(s, LateReceipt(file), ticket) else Create(s, file, Plain)
  }

  function FileOf(r: Receipt, ticket: nat): File {
    match r
    case Wire(raised, _) => WireReceipt(ticket, raised)
    case Model => ModelOutput(ticket)
    case Normal => Normalization(ticket)
  }

  function AfterReceipt(r: Receipt): WorkerPc {
    match r
    case Wire(_, e) => SetEvidence(e)
    case Model => Merge
    case Normal => Done
  }

  function Merged(a: Active): Evidence {
    var e := if a.evidence.Some? then a.evidence.value else Bare(a.sdkEntered);
    if a.sdkEntered then e else e.(rejection := Some(RequestMappingFailed))
  }

  /** What the main thread records when the session came back in time, or was never called. */
  function Settled(a: Active): Evidence {
    var e := if a.evidence.Some? then a.evidence.value else Bare(a.sdkEntered);
    if a.sdkEntered then e else e.(rejection := Some(SourceOrBudgetGuard))
  }

  /** The worker takes or gives back the lock. */
  function WorkerLock(s: State): Option<State> {
    match s.worker
    case WantWire => if s.lock == Free then Some(s.(lock := ByWorker, worker := HoldWire)) else None
    case Want(r) => if s.lock == Free then Some(s.(lock := ByWorker, worker := Hold(r))) else None
    case Refused => Some(s.(lock := Free, worker := Want(Model)))
    case Entered => Some(s.(lock := Free, worker := ReadyToSend))
    case Written(r) => Some(s.(lock := Free, worker := AfterReceipt(r)))
    case _ => None
  }

  /** Under the lock the worker records its request, unless the run is closed, or writes a receipt. */
  function WorkerWrite(s: State, a: Active): Option<State> {
    match s.worker
    case HoldWire =>
      if s.closed then Some(s.(worker := Refused))
      else Some(s.(store := Create(s.store, WireRequest(a.ticket), Plain), worker := Recorded))
    case Hold(r) => Some(s.(store := Persist(s.store, s.closed, FileOf(r, a.ticket), a.ticket), worker := Written(r)))
    case _ => None
  }

  /** What the worker does to the active attempt, or outside altogether. */
  function WorkerAct(s: State, a: Active, e: Event): Option<State> {
    match s.worker
    case Mapping =>
      if e == Unmappable then Some(s.(worker := Want(Model)))
      else if e == OffPlan then Some(s.(worker := Done))
      else if e == Go then Some(s.(worker := WantWire)) else None
    case Recorded => if e == Go then Some(s.(active := Some(a.(sdkEntered := true)), worker := Entered)) else None
    case ReadyToSend => if e == Go then Some(s.(past := Sent(s.past, a.ticket), worker := InSdk)) else None
    case InSdk =>
      if e.Answer? then
        Some(s.(past := Replied(s.past, a.ticket, Reply(e.received, e.status, e.providerError, e.identified)),
                worker := Want(Wire(e.raised,
                                    Evidence(true, e.received, e.status, e.providerError, e.identified, None)))))
      else None
    case SetEvidence(x) =>
      if e == Go then Some(s.(active := Some(a.(evidence := Some(x))), worker := Want(Model))) else None
    case Merge =>
      if e == Go then Some(s.(active := Some(a.(evidence := Some(Merged(a)))), worker := Want(Normal))) else None
    case _ => None
  }

  predicate Locking(worker: WorkerPc) {
    worker.WantWire? || worker.Want? || worker.Refused? || worker.Entered? || worker.Written?
  }

  predicate Writing(worker: WorkerPc) {
    worker.HoldWire? || worker.Hold?
  }

  /** One statement of the worker. */
  function WorkerStep(s: State, e: Event): Option<State>
    requires s.active.Some?
  {
    if Locking(s.worker) then (if e == Go then WorkerLock(s) else None)
    else if Writing(s.worker) then (if e == Go then WorkerWrite(s, s.active.value) else None)
    else WorkerAct(s, s.active.value, e)
  }

  /** One statement of the main thread between two attempts. */
  function ReadyStep(s: State, e: Event): Option<State> {
    if e == Reserve && !s.stopped && s.count < PLANNED_REQUESTS then
      Some(s.(store := Create(s.store, Reserved(s.count + 1), Plain), count := s.count + 1,
              active := Some(Active(s.count + 1, false, None)), main := Authorized))
    else if e == Batch then Some(s.(store := Create(s.store, Discovery(s.batches), Plain), batches := s.batches + 1))
    else if e == Finish then Some(s.(main := FinalWant)) else None
  }

  /** The session refuses, starts the worker, gives up waiting, or sees the worker done. */
  function SessionStep(s: State, e: Event): Option<State> {
    if s.main.Authorized? then
      if e == SessionRefuses then
        Some(s.(stopped := true, main := ReturnWant, past := EndedWith(s.past, s.count, CallRefused)))
      else if e == StartWorker then Some(s.(worker := Mapping, main := Waiting))
      else if e == Finish then Some(s.(main := FinalWant)) else None
    else
      if e == Timeout then
        Some(s.(timedOut := true, stopped := true, main := ReturnWant, past := EndedWith(s.past, s.count, GaveUp)))
      else if e.WorkerDone? && s.worker == Done then
        Some(s.(worker := Off, stopped := s.stopped || e.failed, main := ReturnWant,
                past := EndedWith(s.past, s.count, SawDone)))
      else None
  }

  /** The main thread takes or gives back the lock. */
  function MainLock(s: State): Option<State> {
    match s.main
    case ReturnWant => if s.lock == Free then Some(s.(lock := ByMain, main := HoldReturn)) else None
    case HoldDone => Some(s.(lock := Free, main := Ready))
    case FinalWant => if s.lock == Free then Some(s.(lock := ByMain, main := HoldFinal)) else None
    case HoldEnd => Some(s.(lock := Free, main := Completing))
    case _ => None
  }

  /** Under the lock the main thread closes the run if it gave up, and decides what the terminal will say. */
  function MainDecide(s: State, a: Active): Option<State> {
    if s.main.HoldReturn? then
      if s.timedOut then Some(s.(closed := true, main := HoldTerminal(Bare(a.sdkEntered), a.evidence.Some?)))
      else Some(s.(main := HoldTerminal(Settled(a), false)))
    else if s.main.HoldFinal? then
      if Terminal(a.ticket) !in s.store.dir then Some(s.(closed := true, main := HoldLast(Settled(a))))
      else Some(s.(closed := true, main := HoldEnd))
    else None
  }

  /** The main thread writes a terminal, or what it had of a late receipt. */
  function MainWrite(s: State, a: Active): Option<State> {
    match s.main
    case HoldTerminal(x, cutoff) =>
      Some(s.(store := Create(s.store, Terminal(a.ticket), Attempt(x)),
              main := if cutoff then HoldCutoff else HoldDone))
    case HoldCutoff => Some(s.(store := CreateLate(s.store, AtCutoff(a.ticket), a.ticket), main := HoldDone))
    case HoldLast(x) => Some(s.(store := Create(s.store, Terminal(a.ticket), Attempt(x)), main := HoldEnd))
    case _ => None
  }

  /** After the final section: the completion report and the listing that seals the directory. */
  function SealStep(s: State): Option<State> {
    match s.main
    case Completing => Some(s.(store := Create(s.store, Completion, Plain), main := Sealing))
    case Sealing => Some(s.(store := Create(s.store, Listing, Files(s.store.dir.Keys)), main := Finished))
    case _ => None
  }

  function MainStep(s: State, e: Event): Option<State> {
    match s.main
    case Ready => ReadyStep(s, e)
    case Authorized | Waiting => SessionStep(s, e)
    case ReturnWant | HoldDone | FinalWant | HoldEnd => if e == Go then MainLock(s) else None
    case HoldReturn => if e == Go && s.active.Some? then MainDecide(s, s.active.value) else None
    case HoldFinal =>
      if e != Go then None
      else if s.active.Some? then MainDecide(s, s.active.value)
      else Some(s.(closed := true, main := HoldEnd))
    case HoldTerminal(_, _) | HoldCutoff | HoldLast(_) =>
      if e == Go && s.active.Some? then MainWrite(s, s.active.value) else None
    case Completing | Sealing => if e == Go then SealStep(s) else None
    case Finished => None
  }

  datatype Thread = MainThread | WorkerThread

  datatype Move = Move(thread: Thread, event: Event)

  function Step(s: State, m: Move): Option<State> {
    if m.thread == MainThread then MainStep(s, m.event)
    else if s.active.Some? then WorkerStep(s, m.event)
    else None
  }

  /** Any interleaving: the moves taken one after the other, as long as each is possible. */
  function Run(s: State, moves: seq<Move>): Option<State> {
    if moves == [] then Some(s)
    else
      var before := Run(s, moves[..|moves| - 1]);
      if before.None? then None else Step(before.value, moves[|moves| - 1])
  }
}
