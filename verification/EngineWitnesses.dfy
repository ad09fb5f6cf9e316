/** Runs that show which promises the dialing engine does not keep, and the exact conditions under which it does. */
module EngineWitnesses {
  import opened Wrappers
  import opened CampaignDomain
  import opened DialEngine
  import opened EngineInvariants
  import opened EngineRuns
  import opened EngineReports

  /** `t` is reached from `s` by operations that all succeed, without Stop. */
  ghost predicate Calmly(c: Campaign, s: State, t: State) {
    exists run :: Feasible(c, s, run) && Final(c, s, run) == t && AllSucceed(run) && NoStop(run)
  }

  lemma {:induction false} Append(c: Campaign, s: State, run: seq<Event>, e: Event)
    requires Feasible(c, s, run) && Enabled(c, Final(c, s, run), e)
    ensures Feasible(c, s, run + [e]) && Final(c, s, run + [e]) == Apply(c, Final(c, s, run), e)
    decreases |run|
  {
    if run == [] {
      assert run + [e] == [e] && [e][1..] == [];
      assert Feasible(c, Apply(c, s, e), []);
    } else {
      assert (run + [e])[1..] == run[1..] + [e];
      Append(c, Apply(c, s, run[0]), run[1..], e);
    }
  }

  lemma Then(c: Campaign, s: State, t: State, e: Event)
    requires Calmly(c, s, t) && Enabled(c, t, e) && Succeeds(e) && e != Issue(Stop)
    ensures Calmly(c, s, Apply(c, t, e))
  {
    var run :| Feasible(c, s, run) && Final(c, s, run) == t && AllSucceed(run) && NoStop(run);
    Append(c, s, run, e);
    assert AllSucceed(run + [e]) && NoStop(run + [e]);
  }

  const YES := Reply(true, true, None)
  const NO := Reply(true, false, None)

  predicate ReadyToPoll(s: State) {
    s.loc.Polling? && s.status == Running && !s.cancelled && s.command.Free?
  }

  /** From the top of the loop to the queue. */
  lemma ReachQueue(c: Campaign, s0: State, s: State)
    requires Calmly(c, s0, s) && ReadyToPoll(s)
    ensures Calmly(c, s0, s.(loc := Popping))
  {
    Then(c, s0, s, Dispatch(YES));
    Then(c, s0, s.(loc := Reading), Dispatch(YES));
    Then(c, s0, s.(loc := Gating), Dispatch(YES));
  }

  function Launched(s: State): State
    requires s.queue != []
  {
    s.(queue := s.queue[1..], slots := s.slots + 1, pending := s.pending + 1,
       workers := s.workers + [NewWorker(s.queue[0], s.books.progress)])
  }

  /** One iteration of the dispatch loop that launches a dial. */
  lemma LaunchOne(c: Campaign, s0: State, s: State)
    requires Calmly(c, s0, s) && ReadyToPoll(s) && s.queue != [] && s.slots < Capacity(c.concurrency)
    ensures Calmly(c, s0, Launched(s))
  {
    ReachQueue(c, s0, s);
    Then(c, s0, s.(loc := Popping), Dispatch(YES));
    var held := s.(loc := Holding(s.queue[0]), queue := s.queue[1..]);
    Then(c, s0, held, Dispatch(NO));
    var ready := held.(loc := Launching(s.queue[0]), slots := s.slots + 1);
    Then(c, s0, ready, Dispatch(YES));
    assert Apply(c, ready, Dispatch(YES)) == Launched(s);
  }

  function Answering(w: Worker, row: ContactRow, outcome: ContactStatus): Worker {
    w.(stage := Counting, attempts := row.attempts, status := outcome, called := true, persisted := true)
  }

  function Rung(s: State, i: nat, outcome: ContactStatus): State
    requires i < |s.workers| && s.workers[i].id in s.rows
  {
    var w := s.workers[i];
    s.(workers := s.workers[i := Answering(w, s.rows[w.id], outcome)],
       rows := s.rows[w.id := ContactRow(outcome, s.rows[w.id].attempts + 1)])
  }

  /** Goroutine `i` becomes `w`, with the contact rows and the books given. */
  function Turned(s: State, i: nat, w: Worker, rows: map<ContactId, ContactRow>, books: Books): State
    requires i < |s.workers|
  {
    s.(workers := s.workers[i := w], rows := rows, books := books)
  }

  /** One step of a goroutine before its retry decision. */
  lemma Turn(c: Campaign, s0: State, s: State, i: nat, r: Reply, w: Worker, rows: map<ContactId, ContactRow>,
             books: Books)
    requires Calmly(c, s0, s) && i < |s.workers| && Rank(s.workers[i].stage) <= 10 && r.ok
    requires NextWorker(c, s, s.workers[i], r) == w && w.fate == s.workers[i].fate
    requires NextRows(s.rows, s.workers[i], true) == rows && NextBooks(s.books, s.workers[i], true) == books
    ensures Calmly(c, s0, Turned(s, i, w, rows, books))
  {
    Then(c, s0, s, Dial(i, r));
    assert Apply(c, s, Dial(i, r)) == Turned(s, i, w, rows, books);
  }

  /** A further step of the same goroutine. */
  lemma TurnAgain(c: Campaign, s0: State, s: State, i: nat, w: Worker, rows: map<ContactId, ContactRow>, r: Reply,
                  w': Worker, rows': map<ContactId, ContactRow>)
    requires i < |s.workers| && Calmly(c, s0, Turned(s, i, w, rows, s.books)) && r.ok
    requires w.stage.Screening? || w.stage.Marking? || w.stage.Calling? || w.stage.Recording?
    requires NextWorker(c, s, w, r) == w' && NextRows(rows, w, true) == rows'
    ensures Calmly(c, s0, Turned(s, i, w', rows', s.books))
  {
    Turn(c, s0, Turned(s, i, w, rows, s.books), i, r, w', rows', s.books);
  }

  function Ringing(w: Worker, row: ContactRow): Worker {
    w.(stage := Calling, attempts := row.attempts, called := true, persisted := true)
  }

  function Screened(w: Worker, row: ContactRow): Worker {
    w.(stage := Marking, attempts := row.attempts)
  }

  lemma ScreenOne(c: Campaign, s0: State, s: State, i: nat)
    requires Calmly(c, s0, s) && i < |s.workers| && s.workers[i].stage.Fetching? && s.workers[i].id in s.rows
    ensures Calmly(c, s0, Turned(s, i, Screened(s.workers[i], s.rows[s.workers[i].id]), s.rows, s.books))
  {
    var w := s.workers[i];
    var w1 := w.(stage := Screening, attempts := s.rows[w.id].attempts);
    Turn(c, s0, s, i, NO, w1, s.rows, s.books);
    TurnAgain(c, s0, s, i, w1, s.rows, NO, Screened(w, s.rows[w.id]), s.rows);
  }

  lemma PlaceOne(c: Campaign, s0: State, s: State, i: nat)
    requires Calmly(c, s0, s) && i < |s.workers| && s.workers[i].stage.Fetching? && s.workers[i].id in s.rows
    ensures var w, row := s.workers[i], s.rows[s.workers[i].id];
      Calmly(c, s0, Turned(s, i, Ringing(w, row), s.rows[w.id := ContactRow(InDialing, row.attempts + 1)], s.books))
  {
    ScreenOne(c, s0, s, i);
    var w := s.workers[i];
    var row := s.rows[w.id];
    TurnAgain(c, s0, s, i, Screened(w, row), s.rows, NO, Ringing(w, row),
              s.rows[w.id := ContactRow(InDialing, row.attempts + 1)]);
  }

  lemma CallOne(c: Campaign, s0: State, s: State, i: nat, outcome: ContactStatus)
    requires Calmly(c, s0, s) && i < |s.workers| && s.workers[i].stage.Fetching? && s.workers[i].id in s.rows
    ensures Calmly(c, s0, Rung(s, i, outcome))
  {
    PlaceOne(c, s0, s, i);
    var w := s.workers[i];
    var row := s.rows[w.id];
    var w4 := Ringing(w, row).(stage := Recording, status := outcome);
    var ringing := s.rows[w.id := ContactRow(InDialing, row.attempts + 1)];
    var answered := s.rows[w.id := ContactRow(outcome, row.attempts + 1)];
    assert answered == ringing[w.id := ContactRow(outcome, row.attempts + 1)];
    TurnAgain(c, s0, s, i, Ringing(w, row), ringing, Reply(true, false, Some(outcome)), w4, ringing);
    TurnAgain(c, s0, s, i, w4, ringing, NO, Answering(w, row, outcome), answered);
  }

  /** Goroutine `i` publishes: memory, then database and cache. */
  function CountedNow(s: State, i: nat): State
    requires i < |s.workers|
  {
    var w := s.workers[i];
    var p := Advance(s.books.progress, w.status);
    Turned(s, i, w.(stage := Crediting, snapshot := p), s.rows,
           s.books.(progress := p, reached := s.books.reached + [p]))
  }

  lemma CountOne(c: Campaign, s0: State, s: State, i: nat)
    requires Calmly(c, s0, s) && i < |s.workers| && s.workers[i].stage.Counting?
    ensures Calmly(c, s0, CountedNow(s, i))
  {
    var t := CountedNow(s, i);
    Turn(c, s0, s, i, NO, t.workers[i], s.rows, t.books);
  }

  function Stored(s: State, i: nat): State
    requires i < |s.workers|
  {
    var w := s.workers[i];
    Turned(s, i, w.(stage := Tallying, credited := true), s.rows,
           s.books.(dbCounters := s.books.dbCounters.Plus(Delta(w.status)), cachedProgress := Some(w.snapshot)))
  }

  lemma StoreOne(c: Campaign, s0: State, s: State, i: nat)
    requires Calmly(c, s0, s) && i < |s.workers| && s.workers[i].stage.Crediting?
    ensures Calmly(c, s0, Stored(s, i))
  {
    var w, t := s.workers[i], Stored(s, i);
    var w1 := w.(stage := Caching, credited := true);
    var b1 := s.books.(dbCounters := s.books.dbCounters.Plus(Delta(w.status)));
    Turn(c, s0, s, i, NO, w1, s.rows, b1);
    Turn(c, s0, Turned(s, i, w1, s.rows, b1), i, NO, t.workers[i], s.rows, t.books);
  }

  /** Nothing about the progress in memory, in the cache or in the database differs. */
  predicate SameProgress(s: State, t: State) {
    && t.books.progress == s.books.progress && t.books.cachedProgress == s.books.cachedProgress
    && t.books.reached == s.books.reached && t.books.dbCounters == s.books.dbCounters
  }

  /** Goroutine `i`, its snapshot stored, comes to its retry decision. */
  lemma DecideOne(c: Campaign, s0: State, s: State, i: nat) returns (books: Books)
    requires Calmly(c, s0, s) && i < |s.workers| && s.workers[i].stage.Tallying? && s.workers[i].called
    ensures var t := Turned(s, i, s.workers[i].(stage := Deciding), s.rows, books);
      Calmly(c, s0, t) && SameProgress(s, t)
  {
    var w := s.workers[i];
    var b1 := s.books.(dialCount := s.books.dialCount + 1);
    if b1.dialCount % 5 == 0 || w.snapshot.remaining == 0 {
      var w1 := w.(stage := Notifying);
      books := b1.(progressCalls := b1.progressCalls + [w.snapshot]);
      Turn(c, s0, s, i, NO, w1, s.rows, b1);
      Turn(c, s0, Turned(s, i, w1, s.rows, b1), i, NO, w.(stage := Deciding), s.rows, books);
    } else {
      books := b1;
      Turn(c, s0, s, i, NO, w.(stage := Deciding), s.rows, b1);
    }
  }

  /** Goroutine `i` leaves after its decision. */
  function Left(c: Campaign, s: State, i: nat): State
    requires i < |s.workers|
  {
    var w := s.workers[i];
    var retry := ShouldRetry(w.status, w.attempts + 1, c.retryMax);
    s.(workers := s.workers[i := w.(stage := Gone, fate := if retry then Requeued else Settled)],
       queue := if retry then s.queue + [w.id] else s.queue, slots := s.slots - 1, pending := s.pending - 1)
  }

  function Decided(c: Campaign, s: State, i: nat): State
    requires i < |s.workers|
  {
    var w := s.workers[i];
    var retry := ShouldRetry(w.status, w.attempts + 1, c.retryMax);
    s.(workers := s.workers[i := w.(stage := Releasing, fate := if retry then Requeued else Settled)],
       queue := if retry then s.queue + [w.id] else s.queue)
  }

  /** Goroutine `i` gives back its slot, and leaves the wait group. */
  function Released(s: State, i: nat): State
    requires i < |s.workers|
  {
    s.(workers := s.workers[i := s.workers[i].(stage := Gone)], slots := s.slots - 1, pending := s.pending - 1)
  }

  lemma ReleaseOne(c: Campaign, s0: State, s: State, i: nat)
    requires Calmly(c, s0, s) && i < |s.workers| && s.workers[i].stage.Releasing? && !s.workers[i].fate.Owned?
    ensures Calmly(c, s0, Released(s, i))
  {
    var w1 := s.workers[i].(stage := Leaving);
    var s1 := s.(workers := s.workers[i := w1], slots := s.slots - 1);
    Then(c, s0, s, Dial(i, NO));
    assert Apply(c, s, Dial(i, NO)) == s1;
    Then(c, s0, s1, Dial(i, NO));
    assert Apply(c, s1, Dial(i, NO)) == Released(s, i);
  }

  lemma LeaveOne(c: Campaign, s0: State, s: State, i: nat)
    requires Calmly(c, s0, s) && i < |s.workers| && s.workers[i].stage.Deciding? && s.workers[i].fate.Owned?
    ensures Calmly(c, s0, Left(c, s, i))
  {
    var s1 := Decided(c, s, i);
    Then(c, s0, s, Dial(i, NO));
    assert Apply(c, s, Dial(i, NO)) == s1;
    ReleaseOne(c, s0, s1, i);
    assert Released(s1, i) == Left(c, s, i);
  }

  // ---- a retry queued too late is never dialed ----

  function OneContact(concurrency: int, retryMax: int): Launch {
    Launch(Campaign(concurrency, retryMax, 1, ZERO_COUNTERS), [7], map[7 := ContactRow(Pending, 0)], None,
           Records(Running, Running, []), ZERO_COUNTERS)
  }

  function AfterStart(l: Launch): State {
    Initial(l).(loc := Polling, records := l.records.(cachedStatus := Running))
  }

  lemma Started(l: Launch)
    ensures Calmly(l.campaign, Initial(l), AfterStart(l))
  {
    assert Feasible(l.campaign, Initial(l), []) && AllSucceed([]) && NoStop([]);
    Then(l.campaign, Initial(l), Initial(l), Dispatch(YES));
  }

  /** The only contact was busy, and its goroutine is about to decide about a retry. */
  predicate BusyOnce(c: Campaign, s: State) {
    && ReadyToPoll(s) && s.queue == [] && |s.workers| == 1 && s.pending == 1 && s.slots == 1
    && s.workers[0].stage.Deciding? && s.workers[0].fate.Owned? && s.workers[0].id == 7
    && ShouldRetry(s.workers[0].status, s.workers[0].attempts + 1, c.retryMax)
    && 7 in s.rows && s.books.progress.remaining == 0 && s.books.dbCounters.dialed == 1
  }

  /** The goroutine of the only contact has stored its outcome. */
  predicate BusyStored(s: State) {
    && ReadyToPoll(s) && s.queue == [] && |s.workers| == 1 && s.pending == 1 && s.slots == 1
    && s.workers[0] == Worker(7, Tallying, Owned, 0, Busy, true, true, true, s.books.progress)
    && 7 in s.rows && s.books.progress.remaining == 0 && s.books.dbCounters.dialed == 1
  }

  lemma BusyCall(concurrency: int, retryMax: int) returns (s: State)
    ensures var l := OneContact(concurrency, retryMax); Calmly(l.campaign, Initial(l), s) && BusyStored(s)
  {
    var l := OneContact(concurrency, retryMax);
    var c, s0 := l.campaign, Initial(l);
    Started(l);
    LaunchOne(c, s0, AfterStart(l));
    var s1 := Launched(AfterStart(l));
    CallOne(c, s0, s1, 0, Busy);
    var s2 := Rung(s1, 0, Busy);
    CountOne(c, s0, s2, 0);
    var s3 := CountedNow(s2, 0);
    StoreOne(c, s0, s3, 0);
    s := Stored(s3, 0);
  }

  lemma BusyOne(concurrency: int, retryMax: int) returns (s: State)
    requires retryMax > 0
    ensures var l := OneContact(concurrency, retryMax); Calmly(l.campaign, Initial(l), s) && BusyOnce(l.campaign, s)
  {
    var l := OneContact(concurrency, retryMax);
    var t := BusyCall(concurrency, retryMax);
    var books := DecideOne(l.campaign, Initial(l), t, 0);
    s := Turned(t, 0, t.workers[0].(stage := Deciding), t.rows, books);
  }

  /** With retries, the only contact can be busy, be queued again behind the dispatcher's back, and stay there. */
  lemma StrandedRetry(concurrency: int, retryMax: int) returns (t: State)
    requires retryMax > 0
    ensures Calmly(OneContact(concurrency, retryMax).campaign, Initial(OneContact(concurrency, retryMax)), t)
    ensures t.status == Completed && t.queue == [7] && t.books.progress.remaining == 0
  {
    var l := OneContact(concurrency, retryMax);
    var s := BusyOne(concurrency, retryMax);
    t := LateRetry(l.campaign, Initial(l), s);
  }

  lemma LateRetry(c: Campaign, s0: State, s: State) returns (t: State)
    requires Calmly(c, s0, s) && ReadyToPoll(s) && s.queue == [] && s.pending == 1 && |s.workers| == 1
    requires s.workers[0].stage.Deciding? && s.workers[0].fate.Owned? && s.workers[0].id == 7
    requires ShouldRetry(s.workers[0].status, s.workers[0].attempts + 1, c.retryMax)
    ensures Calmly(c, s0, t) && t.status == Completed && t.queue == [7] && t.books.progress == s.books.progress
  {
    ReachQueue(c, s0, s);
    var s1 := s.(loc := Popping);
    Then(c, s0, s1, Dispatch(YES));
    var s2 := s.(loc := Draining);
    LeaveOne(c, s0, s2, 0);
    var s3 := Left(c, s2, 0);
    Then(c, s0, s3, Dispatch(YES));
    var s4 := s3.(loc := Finishing);
    Then(c, s0, s4, Dispatch(YES));
    t := Apply(c, s4, Dispatch(YES));
  }

  /** A contact that was busy, queued again in time, and answered then: two dials of one contact in the database. */
  lemma DialedTwice(concurrency: int, retryMax: int) returns (t: State)
    requires retryMax > 0
    ensures Calmly(OneContact(concurrency, retryMax).campaign, Initial(OneContact(concurrency, retryMax)), t)
    ensures t.books.dbCounters.dialed == 2
  {
    var l := OneContact(concurrency, retryMax);
    var c, s0 := l.campaign, Initial(l);
    var s := BusyOne(concurrency, retryMax);
    LeaveOne(c, s0, s, 0);
    s := Left(c, s, 0);
    LaunchOne(c, s0, s);
    s := Launched(s);
    CallOne(c, s0, s, 1, Answered);
    s := Rung(s, 1, Answered);
    CountOne(c, s0, s, 1);
    s := CountedNow(s, 1);
    StoreOne(c, s0, s, 1);
    t := Stored(s, 1);
  }

  /** A completed campaign has always emptied its queue exactly when retries are switched off. */
  lemma CompletionEmptiesQueue(concurrency: int, retryMax: int)
    ensures (forall l: Launch, run ::
               (l.campaign.concurrency == concurrency && l.campaign.retryMax == retryMax
                && IsRun(l, run) && End(l, run).status == Completed)
               ==> End(l, run).queue == [])
            <==> retryMax <= 0
  {
    if retryMax <= 0 {
      forall l: Launch, run |
        l.campaign.concurrency == concurrency && l.campaign.retryMax == retryMax
        && IsRun(l, run) && End(l, run).status == Completed
        ensures End(l, run).queue == []
      {
        Completion(l, run);
      }
    } else {
      var t := StrandedRetry(concurrency, retryMax);
      var l := OneContact(concurrency, retryMax);
      var run :| Feasible(l.campaign, Initial(l), run) && Final(l.campaign, Initial(l), run) == t;
      assert IsRun(l, run) && End(l, run).queue != [];
    }
  }

  // ---- two goroutines can cache their snapshots in the wrong order ----

  function TwoContacts(concurrency: int, retryMax: int): Launch {
    Launch(Campaign(concurrency, retryMax, 2, ZERO_COUNTERS), [7, 8],
           map[7 := ContactRow(Pending, 0), 8 := ContactRow(Pending, 0)], None, Records(Running, Running, []),
           ZERO_COUNTERS)
  }

  /** An answered dial whose snapshot is stored runs to its end. */
  lemma WindDown(c: Campaign, s0: State, s: State, i: nat) returns (t: State)
    requires Calmly(c, s0, s) && i < |s.workers| && s.workers[i].fate.Owned?
    requires s.workers[i].stage.Tallying? && s.workers[i].called && s.workers[i].status == Answered
    ensures Calmly(c, s0, t) && SameProgress(s, t) && t.queue == s.queue && t.loc == s.loc
    ensures |t.workers| == |s.workers| && t.workers[i].stage.Gone?
    ensures forall j :: 0 <= j < |s.workers| && j != i ==> t.workers[j] == s.workers[j]
  {
    var books := DecideOne(c, s0, s, i);
    var s1 := Turned(s, i, s.workers[i].(stage := Deciding), s.rows, books);
    LeaveOne(c, s0, s1, i);
    t := Left(c, s1, i);
  }

  predicate HasAnswer(w: Worker, stage: Stage) {
    w.stage == stage && w.called && w.status == Answered
  }

  lemma BothCalled(concurrency: int, retryMax: int) returns (s: State)
    requires Capacity(concurrency) >= 2
    ensures var l := TwoContacts(concurrency, retryMax); Calmly(l.campaign, Initial(l), s)
    ensures |s.workers| == 2 && s.books == InitialBooks(TwoContacts(concurrency, retryMax))
    ensures s.queue == [] && s.loc.Polling?
    ensures forall i :: 0 <= i < 2 ==> HasAnswer(s.workers[i], Counting)
    ensures forall i :: 0 <= i < 2 ==> s.workers[i].fate.Owned?
  {
    var l := TwoContacts(concurrency, retryMax);
    var c, s0 := l.campaign, Initial(l);
    Started(l);
    s := AfterStart(l);
    LaunchOne(c, s0, s);
    s := Launched(s);
    assert s.queue == [8] && s.workers[0].id == 7;
    LaunchOne(c, s0, s);
    s := Launched(s);
    assert s.workers[0].id == 7 && s.workers[1].id == 8 && s.workers[1].stage.Fetching?;
    CallOne(c, s0, s, 0, Answered);
    s := Rung(s, 0, Answered);
    CallOne(c, s0, s, 1, Answered);
    s := Rung(s, 1, Answered);
  }

  /** Counted in one order, stored in the other. */
  lemma Crossed(c: Campaign, s0: State, s: State) returns (t: State)
    requires Calmly(c, s0, s) && |s.workers| == 2
    requires forall i :: 0 <= i < 2 ==> HasAnswer(s.workers[i], Counting)
    requires forall i :: 0 <= i < 2 ==> s.workers[i].fate.Owned?
    ensures Calmly(c, s0, t) && |t.workers| == 2 && t.queue == s.queue && t.loc == s.loc
    ensures forall i :: 0 <= i < 2 ==> HasAnswer(t.workers[i], Tallying)
    ensures forall i :: 0 <= i < 2 ==> t.workers[i].fate.Owned?
    ensures t.books.cachedProgress == Some(Advance(s.books.progress, Answered))
    ensures t.books.progress == Advance(Advance(s.books.progress, Answered), Answered)
    ensures |t.books.reached| == |s.books.reached| + 2
  {
    CountOne(c, s0, s, 0);
    var s1 := CountedNow(s, 0);
    CountOne(c, s0, s1, 1);
    var s2 := CountedNow(s1, 1);
    StoreOne(c, s0, s2, 1);
    var s3 := Stored(s2, 1);
    assert s3.workers[0] == s1.workers[0];
    StoreOne(c, s0, s3, 0);
    t := Stored(s3, 0);
  }

  lemma CrossedAndGone(c: Campaign, s0: State, s: State) returns (t: State)
    requires Calmly(c, s0, s) && |s.workers| == 2 && s.queue == [] && s.loc.Polling?
    requires forall i :: 0 <= i < 2 ==> HasAnswer(s.workers[i], Counting)
    requires forall i :: 0 <= i < 2 ==> s.workers[i].fate.Owned?
    ensures Calmly(c, s0, t) && Quiescent(t) && |t.books.reached| >= 2 && t.queue == [] && t.loc.Polling?
    ensures t.books.cachedProgress == Some(Advance(s.books.progress, Answered))
    ensures t.books.progress == Advance(Advance(s.books.progress, Answered), Answered)
  {
    var s1 := Crossed(c, s0, s);
    var s2 := WindDown(c, s0, s1, 0);
    t := WindDown(c, s0, s2, 1);
  }

  /** With no goroutine, an empty queue and nothing in the dispatcher's hand, no goroutine will ever exist again. */
  predicate Idle(s: State) {
    && (forall i :: 0 <= i < |s.workers| ==> s.workers[i].stage.Gone?)
    && s.queue == [] && !s.loc.Holding? && !s.loc.Launching?
  }

  lemma {:induction false} IdleForGood(c: Campaign, s: State, run: seq<Event>)
    requires Feasible(c, s, run) && Idle(s)
    ensures Idle(Final(c, s, run)) && Final(c, s, run).books == s.books
    decreases |run|
  {
    if run != [] { IdleForGood(c, Apply(c, s, run[0]), run[1..]); }
  }

  /** With two slots the last snapshot written to the cache can be an old one, and then nothing ever corrects it. */
  lemma StaleCache(concurrency: int, retryMax: int) returns (t: State)
    requires Capacity(concurrency) >= 2
    ensures var l := TwoContacts(concurrency, retryMax); Calmly(l.campaign, Initial(l), t)
    ensures Quiescent(t) && |t.books.reached| > 1 && t.books.cachedProgress.Some?
    ensures t.books.cachedProgress.value.counters.dialed < t.books.progress.counters.dialed
    ensures var c := TwoContacts(concurrency, retryMax).campaign;
      forall run :: Feasible(c, t, run) ==> Final(c, t, run).books == t.books
  {
    var l := TwoContacts(concurrency, retryMax);
    var s := BothCalled(concurrency, retryMax);
    t := CrossedAndGone(l.campaign, Initial(l), s);
    forall run | Feasible(l.campaign, t, run) ensures Final(l.campaign, t, run).books == t.books {
      IdleForGood(l.campaign, t, run);
    }
  }

  /** Once all dials are gone the cached progress is always the true one exactly when the pool has one slot. */
  lemma CacheAgreesExactly(concurrency: int)
    ensures (forall l: Launch, run ::
               (l.campaign.concurrency == concurrency && IsRun(l, run) && AllSucceed(run) && Quiescent(End(l, run))
                && |End(l, run).books.reached| > 1)
               ==> End(l, run).books.cachedProgress == Some(End(l, run).books.progress))
            <==> Capacity(concurrency) == 1
  {
    if Capacity(concurrency) == 1 {
      forall l: Launch, run |
        l.campaign.concurrency == concurrency && IsRun(l, run) && AllSucceed(run) && Quiescent(End(l, run))
        && |End(l, run).books.reached| > 1
        ensures End(l, run).books.cachedProgress == Some(End(l, run).books.progress)
      {
        SequentialCacheAgrees(l, run);
      }
    } else {
      var t := StaleCache(concurrency, 0);
      var l := TwoContacts(concurrency, 0);
      var run :| Feasible(l.campaign, Initial(l), run) && Final(l.campaign, Initial(l), run) == t && AllSucceed(run);
      assert IsRun(l, run) && End(l, run) == t;
    }
  }
}
