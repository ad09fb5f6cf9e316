/** What Pause, Resume and Stop achieve whatever else goes on, and exactly when their effect does not last. */
module EngineCommands {
  import opened Wrappers
  import opened CampaignDomain
  import opened DialEngine
  import opened EngineContexts
  import opened EngineInvariants
  import opened EngineRuns
  import opened EngineTiming
  import opened EngineWitnesses
  import opened Sums

  // ---- pausing and resuming while dials go on ----

  function Dials(run: seq<Event>): seq<Event> {
    if run == [] then [] else (if run[0].Dial? then [run[0]] else []) + Dials(run[1..])
  }

  function Commands(run: seq<Event>): seq<Event> {
    if run == [] then [] else (if run[0].Issue? || run[0].Carry? then [run[0]] else []) + Commands(run[1..])
  }

  /** `s` with the status of the campaign, inside and outside, that it has in `m`. */
  function WithStatus(s: State, m: State): State {
    s.(status := m.status, command := m.command, records := m.records)
  }

  predicate NotStopping(s: State) {
    s.command != ClearingQueue && s.command != SavingStatus(Stopped)
  }

  lemma DialApart(c: Campaign, d: State, m: State, i: nat, r: Reply)
    requires CanDial(d, i)
    ensures DialStep(c, WithStatus(d, m), i, r) == WithStatus(DialStep(c, d, i, r), m)
  {
  }

  lemma CommandApart(c: Campaign, d: State, m: State, e: Event)
    requires (e.Issue? || e.Carry?) && Enabled(c, m, e) && e != Issue(Stop) && NotStopping(m)
    ensures Apply(c, WithStatus(d, m), e) == WithStatus(d, Apply(c, m, e)) && NotStopping(Apply(c, m, e))
  {
  }

  lemma Prefixed(c: Campaign, s: State, e: Event, rest: seq<Event>)
    requires Enabled(c, s, e) && Feasible(c, Apply(c, s, e), rest)
    ensures Feasible(c, s, [e] + rest) && Final(c, s, [e] + rest) == Final(c, Apply(c, s, e), rest)
  {
    assert ([e] + rest)[1..] == rest;
  }

  predicate NoDispatch(run: seq<Event>) {
    forall k :: 0 <= k < |run| ==> !run[k].Dispatch?
  }

  /** The run from both states together ends where `dials` and `commands` lead from either of them. */
  predicate Beside(c: Campaign, d: State, m: State, run: seq<Event>, dials: seq<Event>, commands: seq<Event>) {
    && Feasible(c, WithStatus(d, m), run) && Feasible(c, d, dials) && Feasible(c, m, commands)
    && Final(c, WithStatus(d, m), run) == WithStatus(Final(c, d, dials), Final(c, m, commands))
  }

  /** Goroutines and the commands Pause and Resume do not see each other: interleaved or side by side is the same. */
  lemma {:induction false} SideBySide(c: Campaign, d: State, m: State, run: seq<Event>)
    requires Feasible(c, WithStatus(d, m), run) && NotStopping(m)
    requires Issue(Stop) !in Commands(run) && NoDispatch(run)
    ensures Beside(c, d, m, run, Dials(run), Commands(run))
    decreases |run|
  {
    if run != [] {
      var e, rest := run[0], run[1..];
      forall k | 0 <= k < |rest| ensures !rest[k].Dispatch? { assert rest[k] == run[k + 1]; }
      assert !e.Dispatch? && run == [e] + rest;
      if e.Dial? {
        DialApart(c, d, m, e.worker, e.reply);
        SideBySide(c, Apply(c, d, e), m, rest);
        Prefixed(c, WithStatus(d, m), e, rest);
        Prefixed(c, d, e, Dials(rest));
        assert Dials(run) == [e] + Dials(rest) && Commands(run) == Commands(rest);
      } else {
        assert Commands(run) == [e] + Commands(rest) && Dials(run) == Dials(rest);
        CommandApart(c, d, m, e);
        SideBySide(c, d, Apply(c, m, e), rest);
        Prefixed(c, WithStatus(d, m), e, rest);
        Prefixed(c, m, e, Commands(rest));
      }
    }
  }

  const PAUSE_AND_RESUME := [Issue(Pause), Carry(true), Carry(true), Issue(Resume), Carry(true), Carry(true)]

  predicate PauseThenResume(commands: seq<Event>) {
    && |commands| == 6 && commands[0] == Issue(Pause) && commands[3] == Issue(Resume)
    && commands[1] == commands[2] == commands[4] == commands[5] == Carry(true)
  }

  /** A status that has reached the row and the cache. */
  function AllWritten(s: State, status: CampaignStatus): State {
    s.(status := status, records := s.records.(dbStatus := status, cachedStatus := status))
  }

  /** From a running pool, an accepted command to pause or resume that completes its writes. */
  lemma OneCommand(c: Campaign, s: State, command: Command, rest: seq<Event>)
    requires s.command.Free? && command in {Pause, Resume} && ValidTransition(s.status, Target(command))
    requires Feasible(c, AllWritten(s, Target(command)), rest)
    ensures var u := AllWritten(s, Target(command));
      var run := [Issue(command)] + ([Carry(true)] + ([Carry(true)] + rest));
      Feasible(c, s, run) && Final(c, s, run) == Final(c, u, rest)
  {
    var t := Target(command);
    var s1 := s.(status := t, command := SavingStatus(t));
    var s2 := s1.(command := CachingStatus(t), records := s.records.(dbStatus := t));
    Prefixed(c, s2, Carry(true), rest);
    Prefixed(c, s1, Carry(true), [Carry(true)] + rest);
    Prefixed(c, s, Issue(command), [Carry(true)] + ([Carry(true)] + rest));
  }

  lemma PauseAndResume(c: Campaign, s: State)
    requires s.command.Free? && s.status == Running && s.records.dbStatus == s.records.cachedStatus == Running
    ensures Feasible(c, s, PAUSE_AND_RESUME) && Final(c, s, PAUSE_AND_RESUME) == s
  {
    var paused := AllWritten(s, Paused);
    var back := [Issue(Resume)] + ([Carry(true)] + ([Carry(true)] + []));
    OneCommand(c, paused, Resume, []);
    OneCommand(c, s, Pause, back);
    assert [Issue(Pause)] + ([Carry(true)] + ([Carry(true)] + back)) == PAUSE_AND_RESUME;
  }

  /** Resume undoes Pause: however they interleave with the dials in flight, only what the dials did remains. */
  lemma ResumeUndoesPause(c: Campaign, s: State, run: seq<Event>)
    requires s.command.Free? && s.status == Running && s.records.dbStatus == s.records.cachedStatus == Running
    requires Feasible(c, s, run) && PauseThenResume(Commands(run)) && NoDispatch(run)
    ensures Feasible(c, s, Dials(run)) && Final(c, s, run) == Final(c, s, Dials(run))
  {
    assert WithStatus(s, s) == s;
    assert Feasible(c, s, Dials(run)) && Final(c, s, run) == WithStatus(Final(c, s, Dials(run)), s) by {
      PauseAndResume(c, s);
      assert Commands(run) == PAUSE_AND_RESUME;
      SideBySide(c, s, s, run);
    }
    OnlyDials(c, s, run);
  }

  lemma {:induction false} OnlyDials(c: Campaign, s: State, run: seq<Event>)
    requires Feasible(c, s, Dials(run))
    ensures WithStatus(Final(c, s, Dials(run)), s) == Final(c, s, Dials(run))
    decreases |run|
  {
    if run != [] {
      if run[0].Dial? {
        assert Dials(run)[0] == run[0] && Dials(run)[1..] == Dials(run[1..]);
        OnlyDials(c, Apply(c, s, run[0]), run[1..]);
      } else {
        assert Dials(run) == Dials(run[1..]);
        OnlyDials(c, s, run[1..]);
      }
    }
  }

  // ---- how long a Pause or a Stop lasts ----

  /** The dispatcher cannot see an empty queue any more before it looks at the cancelled context. */
  predicate CannotFinish(loc: DispatcherLoc) {
    loc.Starting? || loc.Polling? || loc.Reading? || loc.Holding? || loc.Launching? || loc.Halted?
  }

  /** A Pause or a Stop that does not meet the dispatcher past its last look at the state lasts until a Resume. */
  lemma {:induction false} InterruptedUntilResume(c: Campaign, s: State, run: seq<Event>)
    requires Feasible(c, s, run) && s.status in {Paused, Stopped} && (s.status == Stopped ==> s.cancelled)
    requires CannotFinish(s.loc) && NoResume(run)
    ensures Final(c, s, run).status in {Paused, Stopped} && CannotFinish(Final(c, s, run).loc)
    decreases |run|
  {
    if run != [] {
      assert run[0] != Issue(Resume);
      forall k | 0 <= k < |run[1..]| ensures run[1..][k] != Issue(Resume) { assert run[1..][k] == run[k + 1]; }
      InterruptedUntilResume(c, Apply(c, s, run[0]), run[1..]);
    }
  }

  /** A Stop that does not meet the dispatcher there is for good. */
  lemma {:induction false} StoppedForGood(c: Campaign, s: State, run: seq<Event>)
    requires Feasible(c, s, run) && s.status == Stopped && s.cancelled && CannotFinish(s.loc)
    ensures Final(c, s, run).status == Stopped && CannotFinish(Final(c, s, run).loc)
    decreases |run|
  {
    if run != [] { StoppedForGood(c, Apply(c, s, run[0]), run[1..]); }
  }

  /** Where the dispatcher is past its last look at the state and has not yet completed. */
  predicate PastLastLook(loc: DispatcherLoc) {
    loc.Gating? || loc.Popping? || loc.Draining? || loc.Finishing?
  }

  predicate SawEmptyQueue(loc: DispatcherLoc) {
    loc.Draining? || loc.Finishing?
  }

  // ---- how a campaign can be brought to its end ----

  const FAILS := Reply(false, false, None)

  /** Only the goroutines and what they write differ. */
  predicate SameButDials(s: State, t: State) {
    t == s.(workers := t.workers, slots := t.slots, pending := t.pending, rows := t.rows, books := t.books)
  }

  lemma FailedDial(c: Campaign, s: State, i: nat)
    requires CanDial(s, i)
    ensures SameButDials(s, DialStep(c, s, i, FAILS))
    ensures StagesLeft()(NextWorker(c, s, s.workers[i], FAILS)) < StagesLeft()(s.workers[i])
  {
  }

  /** The dials in flight can always come to their end: here none of their operations succeeds. */
  lemma Drained(c: Campaign, s0: State, s: State, allowed: set<Command>, d: Discipline) returns (t: State)
    requires Leads(c, s0, s, allowed, d) && SlotInv(c, s) && d != OnlyContextFails
    ensures Leads(c, s0, t, allowed, d) && SlotInv(c, t) && SameButDials(s, t) && t.pending == 0
    decreases Sum(StagesLeft(), s.workers)
  {
    if forall i :: 0 <= i < |s.workers| ==> s.workers[i].stage.Gone? {
      SumIsZero(NotGone(), s.workers);
      t := s;
    } else {
      var i :| 0 <= i < |s.workers| && !s.workers[i].stage.Gone?;
      var e := Dial(i, FAILS);
      SumNonNegative(StagesLeft(), s.workers);
      SumStep(c, s, e, StagesLeft());
      FailedDial(c, s, i);
      SlotStep(c, s, e);
      LeadsOn(c, s0, s, e, allowed, d);
      t := Drained(c, s0, Apply(c, s, e), allowed, d);
    }
  }

  function WritesLeft(command: CommandLoc): nat {
    match command
    case Free => 0 case CachingStatus(_) => 1 case ClearingQueue => 2 case SavingStatus(_) => 3
  }

  /** A command that holds the mutex gives it back. */
  lemma Freed(c: Campaign, s0: State, s: State, allowed: set<Command>, d: Discipline) returns (t: State)
    requires Leads(c, s0, s, allowed, d) && SlotInv(c, s)
    ensures Leads(c, s0, t, allowed, d) && SlotInv(c, t) && t.command.Free?
    ensures t.status == s.status && t.loc == s.loc && t.cancelled == s.cancelled
    ensures t.queue == s.queue || t.queue == []
    ensures s.command == ClearingQueue || s.command == SavingStatus(Stopped) ==> t.queue == []
    decreases WritesLeft(s.command)
  {
    if s.command.Free? {
      t := s;
    } else {
      LeadsOn(c, s0, s, Carry(true), allowed, d);
      t := Freed(c, s0, Apply(c, s, Carry(true)), allowed, d);
    }
  }

  /** A dispatcher that has seen an empty queue can complete the campaign, whatever its status. */
  lemma CanFinish(c: Campaign, s0: State, s: State, allowed: set<Command>, d: Discipline) returns (t: State)
    requires Leads(c, s0, s, allowed, d) && SlotInv(c, s) && SawEmptyQueue(s.loc) && d != OnlyContextFails
    ensures Leads(c, s0, t, allowed, d) && t.status == Completed
  {
    var s1 := Freed(c, s0, s, allowed, d);
    var s2 := Drained(c, s0, s1, allowed, d);
    if s2.loc.Draining? {
      LeadsOn(c, s0, s2, Dispatch(FAILS), allowed, d);
      s2 := Apply(c, s2, Dispatch(FAILS));
    }
    LeadsOn(c, s0, s2, Dispatch(FAILS), allowed, d);
    t := Apply(c, s2, Dispatch(FAILS));
  }

  /** So can one that is about to see it, unless the queue refuses it. */
  lemma CanSeeEmpty(c: Campaign, s0: State, s: State, allowed: set<Command>, d: Discipline) returns (t: State)
    requires Leads(c, s0, s, allowed, d) && SlotInv(c, s) && (s.loc.Gating? || s.loc.Popping?) && s.queue == []
    requires d.AnyReplies? || (d.ContextHonoured? && !s.cancelled)
    ensures Leads(c, s0, t, allowed, d) && t.status == Completed
  {
    var s1 := s;
    if s.loc.Gating? {
      LeadsOn(c, s0, s, Dispatch(YES), allowed, d);
      SlotStep(c, s, Dispatch(YES));
      s1 := Apply(c, s, Dispatch(YES));
    }
    LeadsOn(c, s0, s1, Dispatch(YES), allowed, d);
    SlotStep(c, s1, Dispatch(YES));
    t := CanFinish(c, s0, Apply(c, s1, Dispatch(YES)), allowed, d);
  }

  /** Past its last look the dispatcher can complete the campaign, if a Stop may empty the queue for it. */
  lemma CanComplete(c: Campaign, s: State, allowed: set<Command>) returns (t: State)
    requires SlotInv(c, s) && s.status in {Paused, Stopped} && Stop in allowed && PastLastLook(s.loc)
    ensures Leads(c, s, t, allowed, AnyReplies) && t.status == Completed
  {
    LeadsHere(c, s, allowed, AnyReplies);
    if SawEmptyQueue(s.loc) {
      t := CanFinish(c, s, s, allowed, AnyReplies);
    } else {
      var s1 := Freed(c, s, s, allowed, AnyReplies);
      LeadsOn(c, s, s1, Issue(Stop), allowed, AnyReplies);
      var s2 := Freed(c, s, Apply(c, s1, Issue(Stop)), allowed, AnyReplies);
      t := CanSeeEmpty(c, s, s2, allowed, AnyReplies);
    }
  }

  // ---- exactly when a Pause or a Stop is overwritten ----

  lemma StatusLoc(l: Launch, run: seq<Event>)
    requires IsRun(l, run) && End(l, run).status in {Paused, Stopped}
    ensures var s := End(l, run);
      && SlotInv(l.campaign, s) && ControlInv(s) && (s.status == Stopped <==> s.cancelled)
      && (CannotFinish(s.loc) <==> !PastLastLook(s.loc))
  {
    Flow(l, run, 0);
  }

  /**
    With a queue that may serve a cancelled context, a stopped campaign can still become completed exactly when the Stop
    met the dispatcher between its last look at the state and finish.
   */
  lemma StopOverwrittenExactly(l: Launch, run: seq<Event>)
    requires IsRun(l, run) && End(l, run).status == Stopped
    ensures var s := End(l, run);
      (exists t :: Leads(l.campaign, s, t, ALL_COMMANDS, AnyReplies) && t.status == Completed) <==> PastLastLook(s.loc)
  {
    var c, s := l.campaign, End(l, run);
    StatusLoc(l, run);
    if CannotFinish(s.loc) {
      forall t | Leads(c, s, t, ALL_COMMANDS, AnyReplies) ensures t.status != Completed {
        var more :| Feasible(c, s, more) && Final(c, s, more) == t;
        StoppedForGood(c, s, more);
      }
    } else {
      var t := CanComplete(c, s, ALL_COMMANDS);
    }
  }

  /** When operations on the cancelled context fail, only a dispatcher that saw the empty queue gets past a Stop. */
  lemma {:induction false} StoppedUnlessSeen(c: Campaign, s: State, run: seq<Event>)
    requires Feasible(c, s, run) && Keeps(c, s, run, ContextHonoured)
    requires s.status == Stopped && s.cancelled && !SawEmptyQueue(s.loc)
    ensures Final(c, s, run).status == Stopped && !SawEmptyQueue(Final(c, s, run).loc)
    decreases |run|
  {
    if run != [] { StoppedUnlessSeen(c, Apply(c, s, run[0]), run[1..]); }
  }

  /** So with a queue that honours the context the exact condition is narrower. */
  lemma StopOverwrittenOnHonouredContext(l: Launch, run: seq<Event>)
    requires IsRun(l, run) && End(l, run).status == Stopped
    ensures var s := End(l, run);
      (exists t :: Leads(l.campaign, s, t, ALL_COMMANDS, ContextHonoured) && t.status == Completed)
      <==> SawEmptyQueue(s.loc)
  {
    var c, s := l.campaign, End(l, run);
    StatusLoc(l, run);
    if SawEmptyQueue(s.loc) {
      LeadsHere(c, s, ALL_COMMANDS, ContextHonoured);
      var t := CanFinish(c, s, s, ALL_COMMANDS, ContextHonoured);
    } else {
      forall t | Leads(c, s, t, ALL_COMMANDS, ContextHonoured) ensures t.status != Completed {
        var more :| Feasible(c, s, more) && Final(c, s, more) == t && Keeps(c, s, more, ContextHonoured);
        StoppedUnlessSeen(c, s, more);
      }
    }
  }

  /** A paused campaign that is not resumed, with a queue that may serve a cancelled context; a Stop may come. */
  lemma InterruptionOverwrittenExactly(l: Launch, run: seq<Event>)
    requires IsRun(l, run) && End(l, run).status == Paused
    ensures var s := End(l, run);
      (exists t :: Leads(l.campaign, s, t, {Pause, Stop}, AnyReplies) && t.status == Completed) <==> PastLastLook(s.loc)
  {
    var c, s := l.campaign, End(l, run);
    StatusLoc(l, run);
    if CannotFinish(s.loc) {
      forall t | Leads(c, s, t, {Pause, Stop}, AnyReplies) ensures t.status != Completed {
        var more :| Feasible(c, s, more) && Final(c, s, more) == t && OnlyIssues(more, {Pause, Stop});
        InterruptedUntilResume(c, s, more);
      }
    } else {
      var t := CanComplete(c, s, {Pause, Stop});
    }
  }

  /** The dispatcher will look at the state again before it can see an empty queue. */
  predicate WillLookAgain(s: State) {
    CannotFinish(s.loc) || ((s.loc.Gating? || s.loc.Popping?) && s.queue != [])
  }

  /** Paused, or stopped since, where a completion is out of reach. */
  predicate Kept(c: Campaign, s: State) {
    && ControlInv(s) && SlotInv(c, s)
    && if s.cancelled then s.status == Stopped && !SawEmptyQueue(s.loc) else s.status == Paused && WillLookAgain(s)
  }

  lemma {:induction false} KeptAlong(c: Campaign, s: State, run: seq<Event>)
    requires Feasible(c, s, run) && Kept(c, s) && NoResume(run) && Keeps(c, s, run, ContextHonoured)
    ensures Kept(c, Final(c, s, run))
    decreases |run|
  {
    if run != [] {
      assert run[0] != Issue(Resume);
      forall k | 0 <= k < |run[1..]| ensures run[1..][k] != Issue(Resume) { assert run[1..][k] == run[k + 1]; }
      ControlStep(c, s, run[0]);
      SlotStep(c, s, run[0]);
      KeptAlong(c, Apply(c, s, run[0]), run[1..]);
    }
  }

  lemma {:induction false} UncommandedKeeps(c: Campaign, s: State, run: seq<Event>)
    requires Feasible(c, s, run) && OnlyIssues(run, {}) && !s.cancelled
    ensures Keeps(c, s, run, ContextHonoured) && NoResume(run)
    decreases |run|
  {
    if run != [] {
      assert !run[0].Issue?;
      assert OnlyIssues(run[1..], {}) by {
        forall k | 0 <= k < |run[1..]| ensures !run[1..][k].Issue? { assert run[1..][k] == run[k + 1]; }
      }
      UncommandedKeeps(c, Apply(c, s, run[0]), run[1..]);
    }
  }

  /**
    With no further command a pause is overwritten in some run, whatever the queue does with cancelled contexts, exactly
    when it met the dispatcher with an empty queue: already seen, or past its last look at the state.
   */
  lemma PauseOverwrittenExactly(l: Launch, run: seq<Event>, d: Discipline)
    requires IsRun(l, run) && End(l, run).status == Paused && d != OnlyContextFails
    ensures var s := End(l, run);
      (exists t :: Leads(l.campaign, s, t, {}, d) && t.status == Completed)
      <==> SawEmptyQueue(s.loc) || (PastLastLook(s.loc) && s.queue == [])
  {
    var c, s := l.campaign, End(l, run);
    StatusLoc(l, run);
    LeadsHere(c, s, {}, d);
    if WillLookAgain(s) {
      forall t | Leads(c, s, t, {}, d) ensures t.status != Completed {
        var more :| Feasible(c, s, more) && Final(c, s, more) == t && OnlyIssues(more, {});
        UncommandedKeeps(c, s, more);
        KeptAlong(c, s, more);
      }
    } else if SawEmptyQueue(s.loc) {
      var t := CanFinish(c, s, s, {}, d);
    } else {
      var t := CanSeeEmpty(c, s, s, {}, d);
    }
  }

  /** With a queue that honours the context a Stop adds nothing to that. */
  lemma InterruptionOverwrittenOnHonouredContext(l: Launch, run: seq<Event>)
    requires IsRun(l, run) && End(l, run).status == Paused
    ensures var s := End(l, run);
      (exists t :: Leads(l.campaign, s, t, {Pause, Stop}, ContextHonoured) && t.status == Completed)
      <==> SawEmptyQueue(s.loc) || (PastLastLook(s.loc) && s.queue == [])
  {
    var c, s := l.campaign, End(l, run);
    StatusLoc(l, run);
    LeadsHere(c, s, {Pause, Stop}, ContextHonoured);
    if WillLookAgain(s) {
      forall t | Leads(c, s, t, {Pause, Stop}, ContextHonoured) ensures t.status != Completed {
        var more :| Feasible(c, s, more) && Final(c, s, more) == t && OnlyIssues(more, {Pause, Stop})
                    && Keeps(c, s, more, ContextHonoured);
        KeptAlong(c, s, more);
      }
    } else if SawEmptyQueue(s.loc) {
      var t := CanFinish(c, s, s, {Pause, Stop}, ContextHonoured);
    } else {
      var t := CanSeeEmpty(c, s, s, {Pause, Stop}, ContextHonoured);
    }
  }

  // ---- such states are reached with a dial in flight ----

  /** The dispatcher waits for the one dial in flight, which has not read its contact yet. */
  predicate WaitsForDial(s: State) {
    s.loc.Draining? && |s.workers| == 1 && s.workers[0].stage.Fetching? && s.pending == 1
  }

  lemma WaitingForDial(concurrency: int, retryMax: int) returns (s: State)
    ensures var l := OneContact(concurrency, retryMax); Calmly(l.campaign, Initial(l), s)
    ensures WaitsForDial(s) && s.status == Running && s.command.Free?
  {
    var l := OneContact(concurrency, retryMax);
    var c, s0 := l.campaign, Initial(l);
    Started(l);
    LaunchOne(c, s0, AfterStart(l));
    var s1 := Launched(AfterStart(l));
    ReachQueue(c, s0, s1);
    Then(c, s0, s1.(loc := Popping), Dispatch(YES));
    s := s1.(loc := Draining);
  }

  /**
    For every configuration, and whatever the queue does with cancelled contexts, a Pause or a Stop can arrive while the
    dispatcher waits for a dial, and be overwritten without any further command by an edge that the table forbids.
   */
  lemma OverwrittenWhileDialing(concurrency: int, retryMax: int, command: Command, d: Discipline) returns (s: State)
    requires command != Resume && d != OnlyContextFails
    ensures var l := OneContact(concurrency, retryMax);
      && Leads(l.campaign, Initial(l), s, ALL_COMMANDS, d) && WaitsForDial(s) && s.status == Target(command)
      && (exists t :: Leads(l.campaign, s, t, {}, d) && t.status == Completed)
    ensures !ValidTransition(Target(command), Completed)
  {
    var l := OneContact(concurrency, retryMax);
    var c, s0 := l.campaign, Initial(l);
    var s1 := WaitingForDial(concurrency, retryMax);
    CalmlyLeads(c, s0, s1, d);
    LeadsOn(c, s0, s1, Issue(command), ALL_COMMANDS, d);
    s := Apply(c, s1, Issue(command));
    assert SlotInv(c, s) by {
      var run :| Feasible(c, s0, run) && Final(c, s0, run) == s;
      assert IsRun(l, run);
      Flow(l, run, 0);
    }
    LeadsHere(c, s, {}, d);
    var t := CanFinish(c, s, s, {}, d);
  }

  // ---- what the campaign's row says after a Stop ----

  /** What the row says when only operations on a cancelled context fail: finish cannot write it after a Stop. */
  function StoredAs(s: State): CampaignStatus {
    if s.cancelled && s.status == Completed then Stopped else s.status
  }

  predicate RowInv(s: State) {
    s.command.SavingStatus? || (s.loc.SavingCompletion? && !s.cancelled) || s.records.dbStatus == StoredAs(s)
  }

  lemma {:induction false} RowAlong(c: Campaign, s: State, run: seq<Event>)
    requires Feasible(c, s, run) && Keeps(c, s, run, OnlyContextFails)
    requires SlotInv(c, s) && ControlInv(s) && CancelInv(s) && RowInv(s)
    ensures RowInv(Final(c, s, run))
    decreases |run|
  {
    if run != [] {
      SlotStep(c, s, run[0]);
      ControlStep(c, s, run[0]);
      CancelStep(c, s, run[0]);
      RowAlong(c, Apply(c, s, run[0]), run[1..]);
    }
  }

  /**
    When nothing fails but operations on a cancelled context, the row follows the pool's status between writes exactly
    unless finish has overwritten a Stop: then it stays stopped.
   */
  lemma StoredStatusFollows(l: Launch, run: seq<Event>)
    requires IsRun(l, run) && Keeps(l.campaign, Initial(l), run, OnlyContextFails) && l.records.dbStatus == Running
    requires End(l, run).command.Free? && !End(l, run).loc.SavingCompletion?
    ensures var s := End(l, run);
      s.records.dbStatus == s.status <==> !(s.cancelled && s.status == Completed)
  {
    RowAlong(l.campaign, Initial(l), run);
  }

  /** That does happen, for every configuration: the pool is completed, its row stays stopped. */
  lemma RowStaysStopped(concurrency: int, retryMax: int) returns (t: State)
    ensures var l := OneContact(concurrency, retryMax);
      Leads(l.campaign, Initial(l), t, ALL_COMMANDS, OnlyContextFails)
    ensures t.status == Completed && t.records.dbStatus == Stopped && t.command.Free? && !t.loc.SavingCompletion?
  {
    var l := OneContact(concurrency, retryMax);
    var c, s0, d := l.campaign, Initial(l), OnlyContextFails;
    var s1 := WaitingForDial(concurrency, retryMax);
    CalmlyLeads(c, s0, s1, d);
    LeadsOn(c, s0, s1, Issue(Stop), ALL_COMMANDS, d);
    var s2 := Apply(c, s1, Issue(Stop));
    LeadsOn(c, s0, s2, Carry(true), ALL_COMMANDS, d);
    var s3 := Apply(c, s2, Carry(true));
    LeadsOn(c, s0, s3, Carry(true), ALL_COMMANDS, d);
    var s4 := Apply(c, s3, Carry(true));
    LeadsOn(c, s0, s4, Carry(true), ALL_COMMANDS, d);
    t := CompletedAfterStop(c, s0, Apply(c, s4, Carry(true)));
  }

  /** On a cancelled context the dial cannot even read its contact, and leaves. */
  lemma RefusedDial(c: Campaign, s0: State, s: State) returns (t: State)
    requires Leads(c, s0, s, ALL_COMMANDS, OnlyContextFails) && WaitsForDial(s) && s.cancelled
    ensures Leads(c, s0, t, ALL_COMMANDS, OnlyContextFails) && SameButDials(s, t) && t.pending == 0
  {
    var d := OnlyContextFails;
    LeadsOn(c, s0, s, Dial(0, FAILS), ALL_COMMANDS, d);
    var s1 := Apply(c, s, Dial(0, FAILS));
    LeadsOn(c, s0, s1, Dial(0, YES), ALL_COMMANDS, d);
    var s2 := Apply(c, s1, Dial(0, YES));
    LeadsOn(c, s0, s2, Dial(0, YES), ALL_COMMANDS, d);
    t := Apply(c, s2, Dial(0, YES));
  }

  lemma CompletedAfterStop(c: Campaign, s0: State, s: State) returns (t: State)
    requires Leads(c, s0, s, ALL_COMMANDS, OnlyContextFails) && WaitsForDial(s)
    requires s.cancelled && s.command.Free? && s.records.dbStatus == Stopped
    ensures Leads(c, s0, t, ALL_COMMANDS, OnlyContextFails)
    ensures t.status == Completed && t.records.dbStatus == Stopped && t.command.Free? && !t.loc.SavingCompletion?
  {
    var d := OnlyContextFails;
    var s3 := RefusedDial(c, s0, s);
    LeadsOn(c, s0, s3, Dispatch(YES), ALL_COMMANDS, d);
    var s4 := Apply(c, s3, Dispatch(YES));
    LeadsOn(c, s0, s4, Dispatch(YES), ALL_COMMANDS, d);
    var s5 := Apply(c, s4, Dispatch(YES));
    LeadsOn(c, s0, s5, Dispatch(FAILS), ALL_COMMANDS, d);
    t := Apply(c, s5, Dispatch(FAILS));
  }

  // ---- what a Stop leaves in the queue ----

  /** After the queue was cleared only retries of the goroutines of that moment come into it. */
  predicate LeftoverInv(c: Campaign, s: State) {
    && |s.queue| + Sum(InHand(), s.workers) + InDispatcher(s.loc) <= Capacity(c.concurrency) + 1
    && OnlyRetries(s)
  }

  /** What the dispatcher takes out of the queue it passes on. */
  lemma PassedOn(c: Campaign, s: State, r: Reply)
    requires CanDispatch(c, s)
    ensures var t := DispatchStep(c, s, r);
      |t.queue| + Sum(InHand(), t.workers) + InDispatcher(t.loc)
      <= |s.queue| + Sum(InHand(), s.workers) + InDispatcher(s.loc)
  {
    SumStep(c, s, Dispatch(r), InHand());
  }

  lemma LeftoverDispatch(c: Campaign, s: State, r: Reply)
    requires CanDispatch(c, s) && LeftoverInv(c, s)
    ensures LeftoverInv(c, DispatchStep(c, s, r))
  {
    PassedOn(c, s, r);
    DispatchWorkers(c, s, r);
    var t := DispatchStep(c, s, r);
    forall k | 0 <= k < |t.queue| ensures HasRetry(t.workers, t.queue[k]) {
      assert HasRetry(s.workers, t.queue[k]) by { assert t.queue[k] == s.queue[|s.queue| - |t.queue| + k]; }
      var i :| 0 <= i < |s.workers| && s.workers[i].id == t.queue[k] && s.workers[i].fate.Requeued?;
      assert t.workers[i] == s.workers[i];
    }
  }

  lemma LeftoverStep(c: Campaign, s: State, e: Event)
    requires Enabled(c, s, e) && ShapeInv(c, s) && LeftoverInv(c, s)
    ensures LeftoverInv(c, Apply(c, s, e))
  {
    match e
    case Dispatch(r) => LeftoverDispatch(c, s, r);
    case Dial(i, r) =>
      OnlyRetriesDial(c, s, i, r);
      HandedOver(c, s, i, r);
    case _ => assert Apply(c, s, e).workers == s.workers && Apply(c, s, e).loc == s.loc;
  }

  lemma {:induction false} LeftoverAlong(c: Campaign, s: State, run: seq<Event>)
    requires Feasible(c, s, run) && ShapeInv(c, s) && LeftoverInv(c, s)
    ensures ShapeInv(c, Final(c, s, run)) && LeftoverInv(c, Final(c, s, run))
    decreases |run|
  {
    if run != [] {
      ShapeStep(c, s, run[0]);
      LeftoverStep(c, s, run[0]);
      LeftoverAlong(c, Apply(c, s, run[0]), run[1..]);
    }
  }

  /** A Stop of campaign `l` has just cleared the queue. */
  ghost predicate JustCleared(l: Launch, s: State) {
    exists run :: IsRun(l, run) && End(l, run).command.ClearingQueue? && s == CarryStep(End(l, run), true)
  }

  /**
    After a Stop has cleared the queue, whatever follows, what is queued are retries of the dials of that moment: with
    those still under way and a contact in the dispatcher's hand, at most one more than there are slots.
   */
  lemma StopLeavesOnlyRetries(l: Launch, s: State, more: seq<Event>)
    requires JustCleared(l, s) && Feasible(l.campaign, s, more)
    ensures var t := Final(l.campaign, s, more);
      && (forall k :: 0 <= k < |t.queue| ==> IsRetry(l.campaign, t, t.queue[k]))
      && |t.queue| + Sum(InHand(), t.workers) + InDispatcher(t.loc) <= Capacity(l.campaign.concurrency) + 1
      && (l.campaign.retryMax <= 0 ==> t.queue == [])
  {
    var run :| IsRun(l, run) && End(l, run).command.ClearingQueue? && s == CarryStep(End(l, run), true);
    Flow(l, run, 0);
    OwnersHoldSlots(l.campaign, End(l, run));
    LeftoverAlong(l.campaign, s, more);
    var t := Final(l.campaign, s, more);
    forall k | 0 <= k < |t.queue| ensures IsRetry(l.campaign, t, t.queue[k]) && l.campaign.retryMax > 0 {
      assert HasRetry(t.workers, t.queue[k]);
      var i :| 0 <= i < |t.workers| && t.workers[i].id == t.queue[k] && t.workers[i].fate.Requeued?;
      assert WorkerOk(l.campaign, t.workers[i]);
    }
    if t.queue != [] { assert IsRetry(l.campaign, t, t.queue[0]); }
  }

  /** With a queue that serves a cancelled context, a goroutine about to decide about a retry queues it afterwards. */
  lemma RetryAfterStop(concurrency: int, retryMax: int) returns (s: State)
    requires retryMax > 0
    ensures JustCleared(OneContact(concurrency, retryMax), s)
    ensures CanDial(s, 0) && DialStep(OneContact(concurrency, retryMax).campaign, s, 0, YES).queue == [7]
  {
    var l := OneContact(concurrency, retryMax);
    var c, s0 := l.campaign, Initial(l);
    var s1 := BusyOne(concurrency, retryMax);
    CalmlyLeads(c, s0, s1, AnyReplies);
    LeadsOn(c, s0, s1, Issue(Stop), ALL_COMMANDS, AnyReplies);
    var s2 := Apply(c, s1, Issue(Stop));
    LeadsOn(c, s0, s2, Carry(true), ALL_COMMANDS, AnyReplies);
    var s3 := Apply(c, s2, Carry(true));
    assert JustCleared(l, CarryStep(s3, true)) by {
      var run :| Feasible(c, s0, run) && Final(c, s0, run) == s3;
      assert IsRun(l, run) && End(l, run) == s3;
    }
    s := CarryStep(s3, true);
  }

  ghost predicate QueueStaysEmpty(c: Campaign, s: State) {
    forall more :: Feasible(c, s, more) ==> Final(c, s, more).queue == []
  }

  /**
    With a queue that may serve a cancelled context, a queue that a Stop has cleared is certain to stay empty exactly
    when retries are switched off.
   */
  lemma StopKeepsQueueEmptyExactly(concurrency: int, retryMax: int)
    ensures (forall l: Launch, s ::
               l.campaign.concurrency == concurrency && l.campaign.retryMax == retryMax && JustCleared(l, s)
               ==> QueueStaysEmpty(l.campaign, s))
            <==> retryMax <= 0
  {
    if retryMax <= 0 {
      forall l: Launch, s, more |
        l.campaign.concurrency == concurrency && l.campaign.retryMax == retryMax
        && JustCleared(l, s) && Feasible(l.campaign, s, more)
        ensures Final(l.campaign, s, more).queue == []
      {
        StopLeavesOnlyRetries(l, s, more);
      }
    } else {
      var s := RetryAfterStop(concurrency, retryMax);
      var l := OneContact(concurrency, retryMax);
      var more := [Dial(0, YES)];
      assert more[1..] == [] && Feasible(l.campaign, Apply(l.campaign, s, more[0]), []);
      assert Feasible(l.campaign, s, more) && Final(l.campaign, s, more).queue == [7];
      assert !QueueStaysEmpty(l.campaign, s);
    }
  }

  lemma {:induction false} EmptyAlong(c: Campaign, s: State, run: seq<Event>)
    requires Feasible(c, s, run) && Keeps(c, s, run, ContextHonoured) && s.cancelled && s.queue == []
    ensures Final(c, s, run).queue == []
    decreases |run|
  {
    if run != [] { EmptyAlong(c, Apply(c, s, run[0]), run[1..]); }
  }

  /** With a queue that honours the context it stays empty for every retry limit. */
  lemma ClearedForGood(l: Launch, s: State, more: seq<Event>)
    requires JustCleared(l, s) && Feasible(l.campaign, s, more) && Keeps(l.campaign, s, more, ContextHonoured)
    ensures Final(l.campaign, s, more).queue == []
  {
    assert s.cancelled && s.queue == [] by {
      var run :| IsRun(l, run) && End(l, run).command.ClearingQueue? && s == CarryStep(End(l, run), true);
      Flow(l, run, 0);
    }
    EmptyAlong(l.campaign, s, more);
  }
}
