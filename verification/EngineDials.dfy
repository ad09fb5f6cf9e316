/** What becomes of a dial once the do-not-call list has answered, and what calling hours keep from starting. */
module EngineDials {
  import opened Wrappers
  import opened CampaignDomain
  import opened DialEngine
  import opened EngineInvariants
  import opened EngineReports
  import opened EngineRuns

  /** One event changes a goroutine by its own step or not at all. */
  lemma OwnStepOnly(c: Campaign, s: State, e: Event, i: nat)
    requires Enabled(c, s, e) && i < |s.workers|
    ensures i < |Apply(c, s, e).workers|
    ensures Apply(c, s, e).workers[i]
         == if e.Dial? && e.worker == i then NextWorker(c, s, s.workers[i], e.reply) else s.workers[i]
  {
    match e
    case Dial(j, r) => DialWorkers(c, s, j, r);
    case Dispatch(r) => DispatchWorkers(c, s, r);
    case _ =>
  }

  // ---- before the list is asked ----

  /** Until it is asked a goroutine has no outcome and has called nobody. */
  predicate Unscreened(w: Worker) {
    Rank(w.stage) <= 1 ==> w.status == Pending && !w.called && !w.persisted
  }

  predicate AllUnscreened(s: State) {
    forall j :: 0 <= j < |s.workers| ==> Unscreened(s.workers[j])
  }

  lemma UnscreenedStep(c: Campaign, s: State, e: Event)
    requires Enabled(c, s, e) && AllUnscreened(s)
    ensures AllUnscreened(Apply(c, s, e))
  {
    match e
    case Dial(i, r) =>
      assert Unscreened(NextWorker(c, s, s.workers[i], r));
      DialWorkers(c, s, i, r);
    case Dispatch(r) => DispatchWorkers(c, s, r);
    case _ =>
  }

  lemma {:induction false} UnscreenedAlong(c: Campaign, s: State, run: seq<Event>)
    requires Feasible(c, s, run) && AllUnscreened(s)
    ensures AllUnscreened(Final(c, s, run))
    decreases |run|
  {
    if run != [] {
      UnscreenedStep(c, s, run[0]);
      UnscreenedAlong(c, Apply(c, s, run[0]), run[1..]);
    }
  }

  // ---- after the list has answered ----

  /**
    What the list has said (of a number that is not on it, whether its provider reports through the classifier), or what
    the provider has reported.
   */
  datatype Answer = Blocked(attempts: int) | Cleared(classified: bool) | Reported(status: ContactStatus)

  /**
    A blocked contact is skipped: never called, counted as a do-not-call contact, finished for good.  Any other contact
    is marked and called before anything is counted.  What the provider has reported stays.
   */
  predicate Obeys(w: Worker, answer: Answer) {
    match answer
    case Blocked(attempts) =>
      && !w.called && w.stage !in {Fetching, Screening, Marking, Calling, Recording, Deciding}
      && (!w.stage.Skipping? ==> w.status == Dnc) && w.attempts == attempts
      && w.fate == if Rank(w.stage) <= 10 then Owned else Settled
    case Cleared(classified) =>
      && w.stage !in {Fetching, Screening, Skipping} && (w.stage.Marking? || w.called) && !w.fate.Missing?
      && (classified ==> w.status != Dnc)
    case Reported(status) => Rank(w.stage) >= 5 && w.status == status
  }

  lemma ObeysNext(c: Campaign, s: State, w: Worker, r: Reply, answer: Answer)
    requires !w.stage.Gone? && Obeys(w, answer) && (answer == Cleared(true) ==> r.outcome != Some(Dnc))
    ensures Obeys(NextWorker(c, s, w, r), answer) && NextWorker(c, s, w, r).id == w.id
  {
  }

  lemma {:induction false} ObeysAlong(c: Campaign, s: State, run: seq<Event>, i: nat, answer: Answer)
    requires Feasible(c, s, run) && i < |s.workers| && Obeys(s.workers[i], answer)
    requires answer == Cleared(true) ==> AllClassified(run)
    ensures i < |Final(c, s, run).workers| && Final(c, s, run).workers[i].id == s.workers[i].id
    ensures Obeys(Final(c, s, run).workers[i], answer)
    decreases |run|
  {
    if run != [] {
      OwnStepOnly(c, s, run[0], i);
      if run[0].Dial? && run[0].worker == i {
        if answer == Cleared(true) && run[0].reply.outcome.Some? { OutcomesAreCalls(run[0]); }
        ObeysNext(c, s, s.workers[i], run[0].reply, answer);
      }
      ObeysAlong(c, Apply(c, s, run[0]), run[1..], i, answer);
    }
  }

  lemma OutcomesAreCalls(e: Event)
    requires Classified(e) && e.Dial? && e.reply.outcome.Some?
    ensures e.reply.outcome.value in {Answered, Failed, Busy, NoAnswer}
  {
    var text :| e.reply.outcome.value == ClassifyOutcome(text);
  }

  /** The goroutine just after the answer. */
  lemma Screened(l: Launch, run: seq<Event>, i: nat, r: Reply)
    requires IsRun(l, run) && i < |End(l, run).workers| && End(l, run).workers[i].stage.Screening?
    ensures var w := Apply(l.campaign, End(l, run), Dial(i, r)).workers[i];
      && (if r.yes then Obeys(w, Blocked(w.attempts)) else Obeys(w, Cleared(true)) && Obeys(w, Cleared(false)))
      && w.id == End(l, run).workers[i].id && w.attempts == End(l, run).workers[i].attempts
  {
    UnscreenedAlong(l.campaign, Initial(l), run);
    assert Unscreened(End(l, run).workers[i]);
    assert WorkerOk(l.campaign, End(l, run).workers[i]) by { Flow(l, run, 0); }
    DialWorkers(l.campaign, End(l, run), i, r);
  }

  /**
    The answer of the do-not-call list decides a dial, whatever else happens in the run.  A blocked number is never
    called and never counted as anything but do-not-call; any other number is called before it is counted, and with a
    provider that reports through the classifier it is never counted as do-not-call.
   */
  lemma ScreeningDecides(l: Launch, run: seq<Event>, i: nat, r: Reply, more: seq<Event>)
    requires IsRun(l, run) && i < |End(l, run).workers| && End(l, run).workers[i].stage.Screening?
    requires Feasible(l.campaign, Apply(l.campaign, End(l, run), Dial(i, r)), more)
    ensures var u := Final(l.campaign, Apply(l.campaign, End(l, run), Dial(i, r)), more);
      i < |u.workers| &&
      var w := u.workers[i];
      && (r.yes ==> !w.called && (IsCounted(w) ==> w.status == Dnc))
      && (r.yes && w.stage.Gone? ==> IsCounted(w) && w.fate.Settled?)
      && (!r.yes ==> (IsCounted(w) ==> w.called) && (w.stage.Gone? ==> IsCounted(w)))
      && (!r.yes && AllClassified(more) ==> w.status != Dnc)
  {
    var s := End(l, run);
    var t := Apply(l.campaign, s, Dial(i, r));
    Screened(l, run, i, r);
    if r.yes {
      ObeysAlong(l.campaign, t, more, i, Blocked(s.workers[i].attempts));
    } else {
      ObeysAlong(l.campaign, t, more, i, Cleared(false));
      if AllClassified(more) { ObeysAlong(l.campaign, t, more, i, Cleared(true)); }
    }
  }

  /** A blocked number's dial writes nothing to its contact's row but do-not-call with the attempts it has read. */
  lemma BlockedRowWrites(l: Launch, run: seq<Event>, i: nat, r: Reply, more: seq<Event>, r2: Reply)
    requires IsRun(l, run) && i < |End(l, run).workers| && End(l, run).workers[i].stage.Screening? && r.yes
    requires Feasible(l.campaign, Apply(l.campaign, End(l, run), Dial(i, r)), more)
    requires Enabled(l.campaign, Final(l.campaign, Apply(l.campaign, End(l, run), Dial(i, r)), more), Dial(i, r2))
    ensures var w := End(l, run).workers[i];
      var u := Final(l.campaign, Apply(l.campaign, End(l, run), Dial(i, r)), more);
      var v := Apply(l.campaign, u, Dial(i, r2));
      v.rows == u.rows || (w.id in u.rows && v.rows == u.rows[w.id := ContactRow(Dnc, w.attempts)])
  {
    Screened(l, run, i, r);
    var s := End(l, run);
    ObeysAlong(l.campaign, Apply(l.campaign, s, Dial(i, r)), more, i, Blocked(s.workers[i].attempts));
  }

  // ---- after the provider has answered ----

  /** What a dial is counted as, and what its retry is decided on, is the provider's answer; an error is a failure. */
  lemma OutcomeIsTheProviders(c: Campaign, s: State, i: nat, r: Reply, more: seq<Event>)
    requires i < |s.workers| && s.workers[i].stage.Calling? && Feasible(c, Apply(c, s, Dial(i, r)), more)
    ensures var u := Final(c, Apply(c, s, Dial(i, r)), more);
      i < |u.workers| && u.workers[i].status == if r.outcome.Some? then r.outcome.value else Failed
  {
    DialWorkers(c, s, i, r);
    var status := if r.outcome.Some? then r.outcome.value else Failed;
    ObeysAlong(c, Apply(c, s, Dial(i, r)), more, i, Reported(status));
  }

  // ---- outside calling hours ----

  /** Whenever the dispatcher asks, the calling hours are over. */
  predicate AlwaysClosed(c: Campaign, s: State, run: seq<Event>)
    requires Feasible(c, s, run)
    decreases |run|
  {
    run == [] || ((s.loc.Gating? && run[0].Dispatch? ==> !run[0].reply.yes)
                  && AlwaysClosed(c, Apply(c, s, run[0]), run[1..]))
  }

  predicate BeforeGate(loc: DispatcherLoc) {
    loc.Starting? || loc.Polling? || loc.Reading? || loc.Gating? || loc.Halted?
  }

  /** Nothing has left the queue but by a Stop, and nobody new is dialing. */
  ghost predicate HeldBack(s: State, t: State) {
    && |t.workers| == |s.workers|
    && forall id :: Count(t.queue, id) + Count(t.dropped, id) >= Count(s.queue, id) + Count(s.dropped, id)
  }

  lemma HoldsBack(c: Campaign, s: State, e: Event)
    requires Enabled(c, s, e) && BeforeGate(s.loc) && (s.loc.Gating? && e.Dispatch? ==> !e.reply.yes)
    ensures HeldBack(s, Apply(c, s, e)) && BeforeGate(Apply(c, s, e).loc)
  {
    var t := Apply(c, s, e);
    forall id ensures Count(t.queue, id) + Count(t.dropped, id) >= Count(s.queue, id) + Count(s.dropped, id) {
      if e.Dial? { CountConcat(s.queue, [s.workers[e.worker].id], id); }
      CountConcat(s.dropped, s.queue, id);
    }
  }

  /** Outside calling hours nothing is taken from the queue, no dial is launched, and the campaign does not complete. */
  lemma {:induction false} NothingStartsOutsideHours(c: Campaign, s: State, run: seq<Event>)
    requires Feasible(c, s, run) && AlwaysClosed(c, s, run) && BeforeGate(s.loc) && s.status != Completed
    ensures HeldBack(s, Final(c, s, run)) && BeforeGate(Final(c, s, run).loc) && Final(c, s, run).status != Completed
    decreases |run|
  {
    if run != [] {
      HoldsBack(c, s, run[0]);
      NothingStartsOutsideHours(c, Apply(c, s, run[0]), run[1..]);
    }
  }
}
