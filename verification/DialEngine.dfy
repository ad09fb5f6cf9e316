/**
  The campaign dialing engine as a step system.  One dispatcher runs `Start`, every spawned goroutine runs
  `dialOne`, and `Pause`/`Resume`/`Stop` arrive from outside.  An event is one section of that code that no
  other thread can observe half done; each event carries the answers of the outside world it depends on.
 */
module DialEngine {
  import opened Wrappers
  import opened CampaignDomain

  datatype Command = Pause | Resume | Stop

  function Target(command: Command): CampaignStatus {
    match command
    case Pause => Paused
    case Resume => Running
    case Stop => Stopped
  }

  /** Where the holder of the pool's mutex is inside `Pause`, `Resume` or `Stop`; Free when no command holds it. */
  datatype CommandLoc =
    | Free
    | SavingStatus(target: CampaignStatus)
    | ClearingQueue
    | CachingStatus(target: CampaignStatus)

  datatype DispatcherLoc =
    | Starting                    // about to write the running state to the cache
    | Polling                     // about to look at the context
    | Reading                     // about to read the campaign state
    | Gating                      // about to check calling hours
    | Popping                     // about to dequeue
    | Holding(id: ContactId)      // has a contact, waits for a slot
    | Launching(id: ContactId)    // has a slot, about to spawn
    | Draining                    // saw an empty queue, waits for the wait group
    | Finishing                   // about to set the completed state
    | SavingCompletion | CachingCompletion | Announcing
    | Halted

  datatype Stage =
    | Fetching | Screening | Skipping | Marking | Calling | Recording
    | Counting | Crediting | Caching | Tallying | Notifying | Deciding
    | Releasing | Leaving | Gone

  /** What has become of the contact a goroutine was given. */
  datatype Fate =
    | Owned        // still with this goroutine
    | Requeued     // handed back to the queue for a retry
    | Settled      // finished for good
    | Abandoned    // its retry could not be queued
    | Missing      // its row could not be read, so it was never dialed

  datatype Worker = Worker(
    id: ContactId,
    stage: Stage,
    fate: Fate,
    attempts: int,            // the attempts read from the contact row
    status: ContactStatus,    // the outcome, once there is one
    called: bool,             // the provider was called
    persisted: bool,          // a row write with attempts + 1 succeeded
    credited: bool,           // the database counters include it
    snapshot: Progress)       // the progress copied inside the critical section

  /** The progress bookkeeping of updateProgress: memory, database, cache and callbacks. */
  datatype Books = Books(
    progress: Progress,
    dialCount: int,
    dbCounters: Counters,
    cachedProgress: Option<Progress>,
    progressCalls: seq<Progress>,
    reached: seq<Progress>)         // every value the in-memory progress has had

  /** What the campaign's status looks like from outside the pool. */
  datatype Records = Records(dbStatus: CampaignStatus, cachedStatus: CampaignStatus, completedCalls: seq<Progress>)

  datatype State = State(
    status: CampaignStatus,
    cancelled: bool,
    command: CommandLoc,
    loc: DispatcherLoc,
    queue: seq<ContactId>,
    slots: int,                     // occupied semaphore slots
    pending: int,                   // wait group count
    workers: seq<Worker>,           // every goroutine ever spawned, in spawn order
    rows: map<ContactId, ContactRow>,
    dropped: seq<ContactId>,        // contacts taken out by Stop
    books: Books,
    records: Records)

  /**
    The answer of the outside world to one step: did the operation succeed, is the yes/no question answered yes
    (calling hours open, number blocked, cancellation chosen), and what the provider reported.
   */
  datatype Reply = Reply(ok: bool, yes: bool, outcome: Option<ContactStatus>)

  datatype Event =
    | Dispatch(reply: Reply)
    | Dial(worker: nat, reply: Reply)
    | Issue(command: Command)
    | Carry(ok: bool)

  /**
    What a pool starts from: its campaign, the queued contacts, the contact rows and what is stored outside.  The
    counters stored in the campaign's row need not be those of the campaign the pool is given.
   */
  datatype Launch = Launch(
    campaign: Campaign,
    ids: seq<ContactId>,
    rows: map<ContactId, ContactRow>,
    cachedProgress: Option<Progress>,
    records: Records,
    stored: Counters)

  function InitialProgress(c: Campaign): Progress {
    Progress(c.counters, c.totalContacts - c.counters.dialed)
  }

  function InitialBooks(l: Launch): Books {
    var p := InitialProgress(l.campaign);
    Books(p, 0, l.stored, l.cachedProgress, [], [p])
  }

  /** The pool just after `Start`'s first critical section. */
  function Initial(l: Launch): State {
    State(Running, false, Free, Starting, l.ids, 0, 0, [], l.rows, [], InitialBooks(l), l.records)
  }

  function NewWorker(id: ContactId, p: Progress): Worker {
    Worker(id, Fetching, Owned, 0, Pending, false, false, false, p)
  }

  // ---- the dispatcher: WorkerPool.Start and finish ----

  predicate CanDispatch(c: Campaign, s: State) {
    match s.loc
    case Reading => s.command.Free?
    case Holding(_) => s.slots < Capacity(c.concurrency) || s.cancelled
    case Draining => s.pending == 0
    case Finishing => s.command.Free?
    case Halted => false
    case _ => true
  }

  /** Holding takes a slot unless there is none or the select picks the cancelled context. */
  predicate TakesSlot(c: Campaign, s: State, r: Reply) {
    s.slots < Capacity(c.concurrency) && !(s.cancelled && r.yes)
  }

  function NextLoc(c: Campaign, s: State, r: Reply): DispatcherLoc {
    match s.loc
    case Starting => Polling
    case Polling => if s.cancelled then Halted else Reading
    case Reading =>
      (match s.status
       case Paused => Polling
       case Stopped | Completed => Halted
       case Draft | Running => Gating)
    case Gating => if r.yes then Popping else Polling
    case Popping =>
      if !r.ok then (if s.cancelled then Halted else Polling)
      else if s.queue == [] then Draining
      else Holding(s.queue[0])
    case Holding(id) => if TakesSlot(c, s, r) then Launching(id) else Halted
    case Launching(_) => Polling
    case Draining => Finishing
    case Finishing => SavingCompletion
    case SavingCompletion => CachingCompletion
    case CachingCompletion => Announcing
    case Announcing | Halted => Halted
  }

  function NextRecords(s: State, r: Reply): Records {
    match s.loc
    case Starting => if r.ok then s.records.(cachedStatus := Running) else s.records
    case SavingCompletion => if r.ok then s.records.(dbStatus := Completed) else s.records
    case CachingCompletion => if r.ok then s.records.(cachedStatus := Completed) else s.records
    case Announcing => s.records.(completedCalls := s.records.completedCalls + [s.books.progress])
    case _ => s.records
  }

  function DispatchStep(c: Campaign, s: State, r: Reply): State
    requires CanDispatch(c, s)
  {
    s.(status := if s.loc.Finishing? then Completed else s.status,
       loc := NextLoc(c, s, r),
       queue := if s.loc.Popping? && r.ok && s.queue != [] then s.queue[1..] else s.queue,
       slots := if s.loc.Holding? && TakesSlot(c, s, r) then s.slots + 1 else s.slots,
       pending := if s.loc.Launching? then s.pending + 1 else s.pending,
       workers := if s.loc.Launching? then s.workers + [NewWorker(s.loc.id, s.books.progress)] else s.workers,
       dropped := if s.loc.Holding? && !TakesSlot(c, s, r) then s.dropped + [s.loc.id] else s.dropped,
       records := NextRecords(s, r))
  }

  // ---- one dial: WorkerPool.dialOne and updateProgress ----

  predicate CanDial(s: State, i: nat) {
    i < |s.workers| && !s.workers[i].stage.Gone?
  }

  function SaveRow(rows: map<ContactId, ContactRow>, id: ContactId, row: ContactRow, ok: bool)
    : map<ContactId, ContactRow>
  {
    if ok && id in rows then rows[id := row] else rows
  }

  /** The critical section of updateProgress. */
  function Advance(p: Progress, status: ContactStatus): Progress {
    Progress(p.counters.Plus(Delta(status)), if p.remaining > 0 then p.remaining - 1 else p.remaining)
  }

  /** Where a goroutine goes once its progress has been published: a skipped contact is finished. */
  function AfterPublishing(w: Worker): Worker {
    if w.called then w.(stage := Deciding) else w.(stage := Releasing, fate := Settled)
  }

  /** The goroutine's own next state. */
  function NextWorker(c: Campaign, s: State, w: Worker, r: Reply): Worker {
    match w.stage
    case Fetching =>
      if r.ok && w.id in s.rows then w.(stage := Screening, attempts := s.rows[w.id].attempts)
      else w.(stage := Releasing, fate := Missing)
    case Screening => w.(stage := if r.yes then Skipping else Marking)
    case Skipping => w.(stage := Counting, status := Dnc)
    case Marking => w.(stage := Calling, called := true, persisted := r.ok)
    case Calling => w.(stage := Recording, status := if r.outcome.Some? then r.outcome.value else Failed)
    case Recording => w.(stage := Counting, persisted := w.persisted || r.ok)
    case Counting => w.(stage := Crediting, snapshot := Advance(s.books.progress, w.status))
    case Crediting => w.(stage := Caching, credited := r.ok)
    case Caching => w.(stage := Tallying)
    case Tallying =>
      if (s.books.dialCount + 1) % 5 == 0 || w.snapshot.remaining == 0 then w.(stage := Notifying)
      else AfterPublishing(w)
    case Notifying => AfterPublishing(w)
    case Deciding =>
      if !ShouldRetry(w.status, w.attempts + 1, c.retryMax) then w.(stage := Releasing, fate := Settled)
      else if r.ok then w.(stage := Releasing, fate := Requeued)
      else w.(stage := Releasing, fate := Abandoned)
    case Releasing => w.(stage := Leaving)
    case Leaving | Gone => w.(stage := Gone)
  }

  /** The contact row writes; each writes the attempts read when the dial began, plus one for a call. */
  function NextRows(rows: map<ContactId, ContactRow>, w: Worker, ok: bool): map<ContactId, ContactRow> {
    match w.stage
    case Skipping => SaveRow(rows, w.id, ContactRow(Dnc, w.attempts), ok)
    case Marking => SaveRow(rows, w.id, ContactRow(InDialing, w.attempts + 1), ok)
    case Recording => SaveRow(rows, w.id, ContactRow(w.status, w.attempts + 1), ok)
    case _ => rows
  }

  function NextBooks(b: Books, w: Worker, ok: bool): Books {
    match w.stage
    case Counting =>
      var p := Advance(b.progress, w.status);
      b.(progress := p, reached := b.reached + [p])
    case Crediting => if ok then b.(dbCounters := b.dbCounters.Plus(Delta(w.status))) else b
    case Caching => if ok then b.(cachedProgress := Some(w.snapshot)) else b
    case Tallying => b.(dialCount := b.dialCount + 1)
    case Notifying => b.(progressCalls := b.progressCalls + [w.snapshot])
    case _ => b
  }

  function DialStep(c: Campaign, s: State, i: nat, r: Reply): State
    requires CanDial(s, i)
  {
    var w := s.workers[i];
    var w' := NextWorker(c, s, w, r);
    s.(workers := s.workers[i := w'],
       queue := if w'.fate.Requeued? && w.fate.Owned? then s.queue + [w.id] else s.queue,
       slots := if w.stage.Releasing? then s.slots - 1 else s.slots,
       pending := if w.stage.Leaving? then s.pending - 1 else s.pending,
       rows := NextRows(s.rows, w, r.ok),
       books := NextBooks(s.books, w, r.ok))
  }

  // ---- commands: WorkerPool.Pause, Resume and Stop ----

  /** Takes the mutex, validates and writes the state; a rejected command releases it unchanged. */
  function IssueStep(s: State, command: Command): State {
    if !ValidTransition(s.status, Target(command)) then s
    else s.(status := Target(command), cancelled := s.cancelled || command.Stop?,
            command := SavingStatus(Target(command)))
  }

  /** The writes a command makes while it holds the mutex. */
  function CarryStep(s: State, ok: bool): State {
    match s.command
    case SavingStatus(t) =>
      s.(command := if t == Stopped then ClearingQueue else CachingStatus(t),
         records := if ok then s.records.(dbStatus := t) else s.records)
    case ClearingQueue =>
      if ok then s.(command := CachingStatus(Stopped), queue := [], dropped := s.dropped + s.queue)
      else s.(command := CachingStatus(Stopped))
    case CachingStatus(t) =>
      s.(command := Free, records := if ok then s.records.(cachedStatus := t) else s.records)
    case Free => s
  }

  // ---- runs ----

  predicate Enabled(c: Campaign, s: State, e: Event) {
    match e
    case Dispatch(_) => CanDispatch(c, s)
    case Dial(i, _) => CanDial(s, i)
    case Issue(_) => s.command.Free?
    case Carry(_) => !s.command.Free?
  }

  function Apply(c: Campaign, s: State, e: Event): State
    requires Enabled(c, s, e)
  {
    match e
    case Dispatch(r) => DispatchStep(c, s, r)
    case Dial(i, r) => DialStep(c, s, i, r)
    case Issue(command) => IssueStep(s, command)
    case Carry(ok) => CarryStep(s, ok)
  }

  predicate Feasible(c: Campaign, s: State, run: seq<Event>)
    decreases |run|
  {
    run == [] || (Enabled(c, s, run[0]) && Feasible(c, Apply(c, s, run[0]), run[1..]))
  }

  function Final(c: Campaign, s: State, run: seq<Event>): State
    requires Feasible(c, s, run)
    decreases |run|
  {
    if run == [] then s else Final(c, Apply(c, s, run[0]), run[1..])
  }

  /** A run of the pool from its launch. */
  predicate IsRun(l: Launch, run: seq<Event>) {
    Feasible(l.campaign, Initial(l), run)
  }

  function End(l: Launch, run: seq<Event>): State
    requires IsRun(l, run)
  {
    Final(l.campaign, Initial(l), run)
  }

  // ---- kinds of runs ----

  predicate Succeeds(e: Event) {
    match e
    case Dispatch(r) => r.ok
    case Dial(_, r) => r.ok
    case Issue(_) => true
    case Carry(ok) => ok
  }

  predicate AllSucceed(run: seq<Event>) {
    forall k :: 0 <= k < |run| ==> Succeeds(run[k])
  }

  predicate NoStop(run: seq<Event>) {
    forall k :: 0 <= k < |run| ==> run[k] != Issue(Stop)
  }
}
