/**
  The worker pool as the object it is: each method is one section that runs without interference and changes the
  pool's fields in place.  Every interleaving is a sequence of these methods, and `Execute` performs any of them.
 */
module WorkerPools {
  import opened Wrappers
  import opened CampaignDomain
  import opened DialEngine
  import opened EngineInvariants
  import opened EngineRuns

  /** The head of the dispatch loop. */
  predicate IsPolling(loc: DispatcherLoc) {
    loc.Starting? || loc.Polling? || loc.Reading? || loc.Gating? || loc.Popping?
  }

  class WorkerPool {
    const campaign: Campaign
    var state: CampaignStatus
    var cancelled: bool
    var command: CommandLoc
    var loc: DispatcherLoc
    var queue: seq<ContactId>
    var slots: int
    var pending: int
    var workers: seq<Worker>
    var rows: map<ContactId, ContactRow>
    var dropped: seq<ContactId>
    var progress: Progress
    var dialCount: int
    var dbCounters: Counters
    var cachedProgress: Option<Progress>
    var progressCalls: seq<Progress>
    var reached: seq<Progress>
    var dbStatus: CampaignStatus
    var cachedStatus: CampaignStatus
    var completedCalls: seq<Progress>

    function BooksView(): Books
      reads this
    {
      Books(progress, dialCount, dbCounters, cachedProgress, progressCalls, reached)
    }

    function View(): State
      reads this
    {
      State(state, cancelled, command, loc, queue, slots, pending, workers, rows, dropped,
            BooksView(), Records(dbStatus, cachedStatus, completedCalls))
    }

    ghost predicate Valid()
      reads this
    {
      InOrder(campaign, View())
    }

    /** NewWorkerPool, and the first critical section of Start. */
    constructor (l: Launch)
      ensures Valid() && campaign == l.campaign && View() == Initial(l)
      ensures state == Running && !cancelled && queue == l.ids && rows == l.rows && workers == []
      ensures progress.counters == l.campaign.counters && dbCounters == l.stored
      ensures progress.remaining == l.campaign.totalContacts - l.campaign.counters.dialed
      ensures cachedProgress == l.cachedProgress
      ensures dbStatus == l.records.dbStatus && cachedStatus == l.records.cachedStatus
    {
      campaign := l.campaign;
      state, cancelled, command, loc := Running, false, Free, Starting;
      queue, slots, pending, workers, rows, dropped := l.ids, 0, 0, [], l.rows, [];
      var p := Progress(l.campaign.counters, l.campaign.totalContacts - l.campaign.counters.dialed);
      progress, dialCount, dbCounters := p, 0, l.stored;
      cachedProgress, progressCalls, reached := l.cachedProgress, [], [p];
      dbStatus, cachedStatus := l.records.dbStatus, l.records.cachedStatus;
      completedCalls := l.records.completedCalls;
    }

    // ---- the sections of the dispatcher ----

    /** The head of the dispatch loop, up to dequeueing a contact; it launches nothing. */
    method Poll(r: Reply)
      requires CanDispatch(campaign, View()) && IsPolling(loc)
      modifies this
      ensures View() == DispatchStep(campaign, old(View()), r)
      ensures workers == old(workers) && state == old(state)
      ensures old(loc).Starting? ==> loc.Polling? && (r.ok ==> cachedStatus == Running)
      ensures old(loc).Polling? ==> if cancelled then loc.Halted? else loc.Reading?
      ensures old(loc).Reading? ==>
        if state == Paused then loc.Polling? else if state in {Stopped, Completed} then loc.Halted? else loc.Gating?
      ensures old(loc).Gating? ==> if r.yes then loc.Popping? else loc.Polling?
      ensures old(loc).Popping? && r.ok && old(queue) != [] ==> loc.Holding? && [loc.id] + queue == old(queue)
      ensures old(loc).Popping? && r.ok && old(queue) == [] ==> loc.Draining?
      ensures old(loc).Popping? && !r.ok ==> if cancelled then loc.Halted? else loc.Polling?
      ensures !(old(loc).Popping? && r.ok) ==> queue == old(queue)
    {
      match loc {
        case Starting =>
          if r.ok { cachedStatus := Running; }
          loc := Polling;
        case Polling =>
          loc := if cancelled then Halted else Reading;
        case Reading =>
          if state == Paused { loc := Polling; }
          else if state == Stopped || state == Completed { loc := Halted; }
          else { loc := Gating; }
        case Gating =>
          loc := if r.yes then Popping else Polling;
        case Popping =>
          if !r.ok {
            loc := if cancelled then Halted else Polling;
          } else if queue == [] {
            loc := Draining;
          } else {
            loc, queue := Holding(queue[0]), queue[1..];
          }
      }
    }

    /** The select between a slot and the cancelled context. */
    method TakeSlot(r: Reply)
      requires CanDispatch(campaign, View()) && loc.Holding?
      modifies this
      ensures View() == DispatchStep(campaign, old(View()), r)
      ensures var free := old(slots) < Capacity(campaign.concurrency);
        if free && !(cancelled && r.yes) then slots == old(slots) + 1 && loc == Launching(old(loc.id))
        else slots == old(slots) && loc.Halted? && dropped == old(dropped) + [old(loc.id)]
    {
      if slots < Capacity(campaign.concurrency) && !(cancelled && r.yes) {
        slots, loc := slots + 1, Launching(loc.id);
      } else {
        dropped, loc := dropped + [loc.id], Halted;
      }
    }

    /** The wait group grows before the goroutine exists. */
    method Spawn(r: Reply)
      requires CanDispatch(campaign, View()) && loc.Launching?
      modifies this
      ensures View() == DispatchStep(campaign, old(View()), r)
      ensures loc.Polling? && pending == old(pending) + 1 && slots == old(slots)
      ensures |workers| == |old(workers)| + 1 && workers[..|old(workers)|] == old(workers)
      ensures var w := workers[|old(workers)|];
        w.id == old(loc.id) && w.stage.Fetching? && w.fate.Owned? && w.status == Pending && !w.called && !w.credited
    {
      pending := pending + 1;
      workers := workers + [NewWorker(loc.id, progress)];
      loc := Polling;
    }

    /** The wait for the dials in flight, and the state write of finish, which asks no table. */
    method Complete(r: Reply)
      requires CanDispatch(campaign, View()) && (loc.Draining? || loc.Finishing?)
      modifies this
      ensures View() == DispatchStep(campaign, old(View()), r)
      ensures old(loc).Draining? ==> loc.Finishing? && state == old(state) && pending == 0
      ensures old(loc).Finishing? ==> loc.SavingCompletion? && state == Completed
    {
      if loc.Draining? { loc := Finishing; } else { state, loc := Completed, SavingCompletion; }
    }

    /** The writes of finish, in their order. */
    method ReportCompletion(r: Reply)
      requires CanDispatch(campaign, View()) && Completing(loc)
      modifies this
      ensures View() == DispatchStep(campaign, old(View()), r)
      ensures completedCalls == old(completedCalls) + (if old(loc).Announcing? then [progress] else [])
      ensures dbStatus == if old(loc).SavingCompletion? && r.ok then Completed else old(dbStatus)
      ensures cachedStatus == if old(loc).CachingCompletion? && r.ok then Completed else old(cachedStatus)
      ensures old(loc).SavingCompletion? ==> loc.CachingCompletion?
      ensures old(loc).CachingCompletion? ==> loc.Announcing?
      ensures old(loc).Announcing? ==> loc.Halted?
    {
      match loc {
        case SavingCompletion =>
          if r.ok { dbStatus := Completed; }
          loc := CachingCompletion;
        case CachingCompletion =>
          if r.ok { cachedStatus := Completed; }
          loc := Announcing;
        case Announcing =>
          completedCalls, loc := completedCalls + [progress], Halted;
      }
    }

    // ---- the sections of one dial ----

    /** The critical section of updateProgress. */
    method CountOutcome(status: ContactStatus) returns (snapshot: Progress)
      modifies this`progress, this`reached
      ensures snapshot == progress == Advance(old(progress), status)
      ensures reached == old(reached) + [progress]
      ensures progress.counters.dialed == old(progress.counters.dialed) + 1
      ensures progress.counters.answered == old(progress.counters.answered) + (if status == Answered then 1 else 0)
      ensures progress.counters.failed
           == old(progress.counters.failed) + (if status == Failed || status == Dnc then 1 else 0)
      ensures progress.counters.busy == old(progress.counters.busy) + (if status == Busy then 1 else 0)
      ensures progress.counters.noAnswer == old(progress.counters.noAnswer) + (if status == NoAnswer then 1 else 0)
      ensures progress.remaining == old(progress.remaining) - (if old(progress.remaining) > 0 then 1 else 0)
    {
      var c, remaining := progress.counters, progress.remaining;
      c := c.(dialed := c.dialed + 1);
      if remaining > 0 { remaining := remaining - 1; }
      match status {
        case Answered => c := c.(answered := c.answered + 1);
        case Failed => c := c.(failed := c.failed + 1);
        case Dnc => c := c.(failed := c.failed + 1);
        case Busy => c := c.(busy := c.busy + 1);
        case NoAnswer => c := c.(noAnswer := c.noAnswer + 1);
        case Pending =>
        case InDialing =>
      }
      progress := Progress(c, remaining);
      reached := reached + [progress];
      snapshot := progress;
    }

    /** A contact row write; an update of a missing row changes nothing. */
    method UpdateContact(id: ContactId, status: ContactStatus, attempts: int, ok: bool)
      modifies this`rows
      ensures rows == SaveRow(old(rows), id, ContactRow(status, attempts), ok)
      ensures rows.Keys == old(rows).Keys && forall k :: k in rows && k != id ==> rows[k] == old(rows)[k]
      ensures id in rows ==> rows[id] == if ok then ContactRow(status, attempts) else old(rows)[id]
    {
      if ok && id in rows { rows := rows[id := ContactRow(status, attempts)]; }
    }

    /** dialOne before any write: the contact is read and looked up on the do-not-call list. */
    method Prepare(i: nat, r: Reply)
      requires CanDial(View(), i) && Rank(workers[i].stage) <= 1
      modifies this
      ensures View() == DialStep(campaign, old(View()), i, r)
      ensures rows == old(rows) && progress == old(progress) && queue == old(queue)
      ensures var w := old(workers)[i];
        w.stage.Screening? ==> workers[i] == w.(stage := if r.yes then Skipping else Marking)
      ensures var w := old(workers)[i];
        w.stage.Fetching? ==>
          workers[i] == if r.ok && w.id in rows then w.(stage := Screening, attempts := rows[w.id].attempts)
                        else w.(stage := Releasing, fate := Missing)
    {
      var w := workers[i];
      if w.stage.Screening? {
        workers := workers[i := w.(stage := if r.yes then Skipping else Marking)];
      } else if r.ok && w.id in rows {
        workers := workers[i := w.(stage := Screening, attempts := rows[w.id].attempts)];
      } else {
        workers := workers[i := w.(stage := Releasing, fate := Missing)];
      }
    }

    /** A blocked number: its row keeps its attempts. */
    method Skip(i: nat, r: Reply)
      requires CanDial(View(), i) && workers[i].stage.Skipping?
      modifies this
      ensures View() == DialStep(campaign, old(View()), i, r)
      ensures rows == SaveRow(old(rows), workers[i].id, ContactRow(Dnc, workers[i].attempts), r.ok)
      ensures workers[i] == old(workers)[i].(stage := Counting, status := Dnc)
    {
      var w := workers[i];
      UpdateContact(w.id, Dnc, w.attempts, r.ok);
      workers := workers[i := w.(stage := Counting, status := Dnc)];
    }

    /** The attempt is written before the call. */
    method Mark(i: nat, r: Reply)
      requires CanDial(View(), i) && workers[i].stage.Marking?
      modifies this
      ensures View() == DialStep(campaign, old(View()), i, r)
      ensures rows == SaveRow(old(rows), workers[i].id, ContactRow(InDialing, workers[i].attempts + 1), r.ok)
      ensures workers[i] == old(workers)[i].(stage := Calling, called := true, persisted := r.ok)
    {
      var w := workers[i];
      UpdateContact(w.id, InDialing, w.attempts + 1, r.ok);
      workers := workers[i := w.(stage := Calling, called := true, persisted := r.ok)];
    }

    /** The call; an error or an empty result counts as failed. */
    method PlaceCall(i: nat, r: Reply)
      requires CanDial(View(), i) && workers[i].stage.Calling?
      modifies this
      ensures View() == DialStep(campaign, old(View()), i, r)
      ensures rows == old(rows) && workers[i].stage.Recording?
      ensures workers[i].status == if r.outcome.Some? then r.outcome.value else Failed
    {
      var w := workers[i];
      workers := workers[i := w.(stage := Recording, status := if r.outcome.Some? then r.outcome.value else Failed)];
    }

    /** The outcome is written with the attempt. */
    method Record(i: nat, r: Reply)
      requires CanDial(View(), i) && workers[i].stage.Recording?
      modifies this
      ensures View() == DialStep(campaign, old(View()), i, r)
      ensures rows == SaveRow(old(rows), workers[i].id, ContactRow(workers[i].status, workers[i].attempts + 1), r.ok)
      ensures var w := old(workers)[i]; workers[i] == w.(stage := Counting, persisted := w.persisted || r.ok)
    {
      var w := workers[i];
      UpdateContact(w.id, w.status, w.attempts + 1, r.ok);
      workers := workers[i := w.(stage := Counting, persisted := w.persisted || r.ok)];
    }

    /** The section of updateProgress that holds the progress lock. */
    method Count(i: nat, r: Reply)
      requires CanDial(View(), i) && workers[i].stage.Counting?
      modifies this
      ensures View() == DialStep(campaign, old(View()), i, r)
      ensures progress.counters.dialed == old(progress.counters.dialed) + 1 && dbCounters == old(dbCounters)
      ensures workers[i] == old(workers)[i].(stage := Crediting, snapshot := progress)
    {
      var w := workers[i];
      var snapshot := CountOutcome(w.status);
      workers := workers[i := w.(stage := Crediting, snapshot := snapshot)];
    }

    /** After the lock is released: the increments of the database row. */
    method Credit(i: nat, r: Reply)
      requires CanDial(View(), i) && workers[i].stage.Crediting?
      modifies this
      ensures View() == DialStep(campaign, old(View()), i, r)
      ensures progress == old(progress) && workers[i] == old(workers)[i].(stage := Caching, credited := r.ok)
      ensures !r.ok ==> dbCounters == old(dbCounters)
      ensures r.ok ==>
        && dbCounters.dialed == old(dbCounters.dialed) + 1
        && dbCounters.answered == old(dbCounters.answered) + (if workers[i].status == Answered then 1 else 0)
        && dbCounters.failed == old(dbCounters.failed) + (if workers[i].status in {Failed, Dnc} then 1 else 0)
        && dbCounters.busy == old(dbCounters.busy) + (if workers[i].status == Busy then 1 else 0)
        && dbCounters.noAnswer == old(dbCounters.noAnswer) + (if workers[i].status == NoAnswer then 1 else 0)
    {
      var w := workers[i];
      if r.ok { dbCounters := dbCounters.Plus(Delta(w.status)); }
      workers := workers[i := w.(stage := Caching, credited := r.ok)];
    }

    /** The goroutine's own snapshot goes to the cache, however old it is by now. */
    method CacheSnapshot(i: nat, r: Reply)
      requires CanDial(View(), i) && workers[i].stage.Caching?
      modifies this
      ensures View() == DialStep(campaign, old(View()), i, r)
      ensures cachedProgress == if r.ok then Some(workers[i].snapshot) else old(cachedProgress)
      ensures workers[i] == old(workers)[i].(stage := Tallying)
    {
      var w := workers[i];
      if r.ok { cachedProgress := Some(w.snapshot); }
      workers := workers[i := w.(stage := Tallying)];
    }

    /** The shared dial count decides whether this update is announced. */
    method CountDial(i: nat, r: Reply)
      requires CanDial(View(), i) && workers[i].stage.Tallying? && workers[i].fate.Owned?
      modifies this
      ensures View() == DialStep(campaign, old(View()), i, r)
      ensures dialCount == old(dialCount) + 1 && progressCalls == old(progressCalls)
      ensures workers[i].stage.Notifying? <==> dialCount % 5 == 0 || workers[i].snapshot.remaining == 0
      ensures !workers[i].stage.Notifying? ==> workers[i].stage == if workers[i].called then Deciding else Releasing
    {
      var w := workers[i];
      dialCount := dialCount + 1;
      if dialCount % 5 == 0 || w.snapshot.remaining == 0 { w := w.(stage := Notifying); }
      else { w := AfterPublishing(w); }
      workers := workers[i := w];
    }

    /** The progress callback. */
    method Notify(i: nat, r: Reply)
      requires CanDial(View(), i) && workers[i].stage.Notifying? && workers[i].fate.Owned?
      modifies this
      ensures View() == DialStep(campaign, old(View()), i, r)
      ensures progressCalls == old(progressCalls) + [workers[i].snapshot]
      ensures workers[i].stage == if workers[i].called then Deciding else Releasing
    {
      var w := workers[i];
      progressCalls := progressCalls + [w.snapshot];
      workers := workers[i := AfterPublishing(w)];
    }

    /** The retry decision. */
    method Decide(i: nat, r: Reply)
      requires CanDial(View(), i) && workers[i].stage.Deciding? && workers[i].fate.Owned?
      modifies this
      ensures View() == DialStep(campaign, old(View()), i, r)
      ensures queue == old(queue) + (if workers[i].fate.Requeued? then [workers[i].id] else []) && rows == old(rows)
      ensures var w := workers[i];
        var again := campaign.retryMax > 0 && w.status in {Busy, NoAnswer} && w.attempts + 1 < campaign.retryMax + 1;
        w.stage.Releasing? && w.fate == if !again then Settled else if r.ok then Requeued else Abandoned
    {
      var w := workers[i];
      if !ShouldRetry(w.status, w.attempts + 1, campaign.retryMax) {
        w := w.(stage := Releasing, fate := Settled);
      } else if r.ok {
        queue := queue + [w.id];
        w := w.(stage := Releasing, fate := Requeued);
      } else {
        w := w.(stage := Releasing, fate := Abandoned);
      }
      workers := workers[i := w];
    }

    /** The deferred releases run last in first out: the slot first. */
    method ReleaseSlot(i: nat, r: Reply)
      requires CanDial(View(), i) && workers[i].stage.Releasing? && !workers[i].fate.Owned?
      modifies this
      ensures View() == DialStep(campaign, old(View()), i, r)
      ensures slots == old(slots) - 1 && pending == old(pending) && workers[i].stage.Leaving?
    {
      slots := slots - 1;
      workers := workers[i := workers[i].(stage := Leaving)];
    }

    /** Then the wait group. */
    method LeaveGroup(i: nat, r: Reply)
      requires CanDial(View(), i) && workers[i].stage.Leaving? && !workers[i].fate.Owned?
      modifies this
      ensures View() == DialStep(campaign, old(View()), i, r)
      ensures slots == old(slots) && pending == old(pending) - 1 && workers[i].stage.Gone?
    {
      pending := pending - 1;
      workers := workers[i := workers[i].(stage := Gone)];
    }

    // ---- the sections of the commands ----

    /** Pause, Resume or Stop up to its first write; a refused command leaves the pool as it was. */
    method Accept(c: Command) returns (accepted: bool)
      requires command.Free?
      modifies this
      ensures View() == IssueStep(old(View()), c)
      ensures accepted <==> ValidTransition(old(state), Target(c))
      ensures accepted ==> state == match c case Pause => Paused case Resume => Running case Stop => Stopped
      ensures accepted ==> cancelled == (old(cancelled) || c.Stop?) && command == SavingStatus(state)
      ensures !accepted ==> View() == old(View())
    {
      accepted := ValidTransition(state, Target(c));
      if accepted {
        state := Target(c);
        if c == Stop { cancelled := true; }
        command := SavingStatus(state);
      }
    }

    /** The write of the campaign's row. */
    method SaveStatus(ok: bool)
      requires command.SavingStatus?
      modifies this
      ensures View() == CarryStep(old(View()), ok)
      ensures dbStatus == if ok then old(command).target else old(dbStatus)
      ensures command == if old(command).target == Stopped then ClearingQueue else CachingStatus(old(command).target)
    {
      if ok { dbStatus := command.target; }
      command := if command.target == Stopped then ClearingQueue else CachingStatus(command.target);
    }

    /** Stop clears the queue. */
    method ClearQueue(ok: bool)
      requires command.ClearingQueue?
      modifies this
      ensures View() == CarryStep(old(View()), ok)
      ensures if ok then queue == [] && dropped == old(dropped) + old(queue) else queue == old(queue)
      ensures command == CachingStatus(Stopped)
    {
      if ok { dropped, queue := dropped + queue, []; }
      command := CachingStatus(Stopped);
    }

    /** The cached state, and the mutex. */
    method CacheStatus(ok: bool)
      requires command.CachingStatus?
      modifies this
      ensures View() == CarryStep(old(View()), ok)
      ensures command.Free? && cachedStatus == if ok then old(command).target else old(cachedStatus)
    {
      if ok { cachedStatus := command.target; }
      command := Free;
    }

    // ---- what may happen next: each keeps the pool in order ----

    /** The dispatcher's next section: it completes the campaign only with nobody in the wait group. */
    method Dispatcher(r: Reply)
      requires Valid() && CanDispatch(campaign, View())
      modifies this
      ensures Valid() && View() == DispatchStep(campaign, old(View()), r)
      ensures slots <= Capacity(campaign.concurrency) && (state == Completed ==> pending == 0)
    {
      ghost var was := View();
      if IsPolling(loc) { Poll(r); }
      else if loc.Holding? { TakeSlot(r); }
      else if loc.Launching? { Spawn(r); }
      else if Completing(loc) { ReportCompletion(r); }
      else { Complete(r); }
      InOrderStep(campaign, was, Event.Dispatch(r));
    }

    /** A goroutine's next section: it spawns nothing and does not touch the campaign's state. */
    method Goroutine(i: nat, r: Reply)
      requires Valid() && CanDial(View(), i)
      modifies this
      ensures Valid() && View() == DialStep(campaign, old(View()), i, r)
      ensures |workers| == |old(workers)| && state == old(state) && dbStatus == old(dbStatus)
    {
      ghost var was := View();
      assert WorkerOk(campaign, workers[i]);
      var stage := workers[i].stage;
      if stage.Skipping? { Skip(i, r); }
      else if stage.Marking? { Mark(i, r); }
      else if stage.Calling? { PlaceCall(i, r); }
      else if stage.Recording? { Record(i, r); }
      else if stage.Counting? { Count(i, r); }
      else if stage.Crediting? { Credit(i, r); }
      else if stage.Caching? { CacheSnapshot(i, r); }
      else if stage.Tallying? { CountDial(i, r); }
      else if stage.Notifying? { Notify(i, r); }
      else if stage.Deciding? { Decide(i, r); }
      else if stage.Releasing? { ReleaseSlot(i, r); }
      else if stage.Leaving? { LeaveGroup(i, r); }
      else { Prepare(i, r); }
      InOrderStep(campaign, was, Dial(i, r));
    }

    /** Pause, Resume or Stop takes the mutex. */
    method Issue(c: Command) returns (accepted: bool)
      requires Valid() && command.Free?
      modifies this
      ensures Valid() && View() == IssueStep(old(View()), c)
      ensures accepted <==> ValidTransition(old(state), Target(c))
      ensures if accepted then state == Target(c) else View() == old(View())
    {
      ghost var was := View();
      accepted := Accept(c);
      InOrderStep(campaign, was, Event.Issue(c));
    }

    /** The next write of the command that has the mutex. */
    method Carry(ok: bool)
      requires Valid() && !command.Free?
      modifies this
      ensures Valid() && View() == CarryStep(old(View()), ok)
      ensures workers == old(workers) && state == old(state)
    {
      ghost var was := View();
      if command.SavingStatus? { SaveStatus(ok); }
      else if command.ClearingQueue? { ClearQueue(ok); }
      else { CacheStatus(ok); }
      InOrderStep(campaign, was, Event.Carry(ok));
    }

    method Step(e: Event)
      requires Valid() && Enabled(campaign, View(), e)
      modifies this
      ensures Valid() && View() == Apply(campaign, old(View()), e)
    {
      match e {
        case Dispatch(r) => Dispatcher(r);
        case Dial(i, r) => Goroutine(i, r);
        case Issue(c) => var _ := Issue(c);
        case Carry(ok) => Carry(ok);
      }
    }

    /** Any interleaving, given as the order in which the sections run, ends where the step system says. */
    method Execute(schedule: seq<Event>)
      requires Valid() && Feasible(campaign, View(), schedule)
      modifies this
      ensures Valid() && View() == Final(campaign, old(View()), schedule)
    {
      var k := 0;
      while k < |schedule|
        invariant 0 <= k <= |schedule|
        invariant Valid() && Feasible(campaign, View(), schedule[k..])
        invariant Final(campaign, View(), schedule[k..]) == Final(campaign, old(View()), schedule)
      {
        assert schedule[k..][0] == schedule[k] && schedule[k..][1..] == schedule[k + 1..];
        Step(schedule[k]);
        k := k + 1;
      }
    }
  }

  /** A pool that has run any schedule from its launch keeps within its slots, and completes with no dial in flight. */
  method RunCampaign(l: Launch, schedule: seq<Event>) returns (pool: WorkerPool)
    requires IsRun(l, schedule)
    ensures fresh(pool) && pool.Valid() && pool.View() == End(l, schedule)
    ensures pool.slots <= Capacity(l.campaign.concurrency)
    ensures pool.state == Completed ==> forall i :: 0 <= i < |pool.workers| ==> pool.workers[i].stage.Gone?
  {
    pool := new WorkerPool(l);
    pool.Execute(schedule);
    if pool.state == Completed { Completion(l, schedule); }
  }
}
