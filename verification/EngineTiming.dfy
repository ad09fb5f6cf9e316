/** How the dispatcher reacts to commands, and why a campaign comes to an end. */
module EngineTiming {
  import opened CampaignDomain
  import opened DialEngine
  import opened EngineInvariants
  import opened EngineRedial
  import opened EngineRuns
  import opened Sums

  // ---- pause and stop latency ----

  /** The dispatcher has passed its last look at the campaign state and may still launch one dial. */
  function LaunchCredit(loc: DispatcherLoc): nat {
    if loc.Gating? || loc.Popping? || loc.Holding? || loc.Launching? then 1 else 0
  }

  predicate NoResume(run: seq<Event>) {
    forall k :: 0 <= k < |run| ==> run[k] != Issue(Resume)
  }

  /**
    From any state in which the campaign is paused, until the next Resume, or in which it is stopped, whatever
    happens next, the dispatcher launches at most one further dial.
   */
  lemma {:induction false} LaunchLatency(c: Campaign, s: State, run: seq<Event>)
    requires Feasible(c, s, run) && s.status !in {Draft, Running}
    requires s.status == Paused ==> NoResume(run)
    ensures |Final(c, s, run).workers| + LaunchCredit(Final(c, s, run).loc) <= |s.workers| + LaunchCredit(s.loc)
    ensures |Final(c, s, run).workers| <= |s.workers| + 1
    decreases |run|
  {
    if run != [] {
      assert s.status == Paused ==> run[0] != Issue(Resume);
      var t := Apply(c, s, run[0]);
      assert t.status == Paused ==> NoResume(run[1..]) by {
        if t.status == Paused {
          assert s.status == Paused;
          forall k | 0 <= k < |run[1..]| ensures run[1..][k] != Issue(Resume) { assert run[1..][k] == run[k + 1]; }
        }
      }
      LaunchLatency(c, t, run[1..]);
    }
  }

  // ---- lifecycle ----

  /**
    A command is obeyed exactly when the table has the edge, and changes nothing otherwise; every other change of the
    state is the unvalidated write of Completed by finish.
   */
  lemma StatusEdges(c: Campaign, s: State, e: Event)
    requires Enabled(c, s, e)
    ensures var t := Apply(c, s, e);
      && (e.Issue? ==>
            t.status == (if ValidTransition(s.status, Target(e.command)) then Target(e.command) else s.status))
      && (e.Issue? && !ValidTransition(s.status, Target(e.command)) ==> t == s)
      && (!e.Issue? && t.status != s.status ==> s.loc.Finishing? && t.status == Completed)
  {
  }

  /** No run leaves Completed, and Stopped is left only for Completed. */
  lemma {:induction false} FinalStatuses(c: Campaign, s: State, run: seq<Event>)
    requires Feasible(c, s, run)
    ensures s.status == Completed ==> Final(c, s, run).status == Completed
    ensures s.status == Stopped ==> Final(c, s, run).status in {Stopped, Completed}
    decreases |run|
  {
    if run != [] {
      StatusEdges(c, s, run[0]);
      FinalStatuses(c, Apply(c, s, run[0]), run[1..]);
    }
  }

  /** A command is refused exactly in a completed campaign, and Pause and Resume also in a stopped one. */
  lemma RefusedExactly(l: Launch, run: seq<Event>, command: Command)
    requires IsRun(l, run)
    ensures var s := End(l, run);
      !ValidTransition(s.status, Target(command)) <==> s.status == Completed || (s.status == Stopped && command != Stop)
  {
    Flow(l, run, 0);
  }

  /** The campaign row follows the state once the write that is under way is done. */
  predicate StoredInv(s: State) {
    !s.command.SavingStatus? && !s.loc.SavingCompletion? ==> s.records.dbStatus == s.status
  }

  lemma {:induction false} StoredAlong(c: Campaign, s: State, run: seq<Event>)
    requires Feasible(c, s, run) && AllSucceed(run) && ControlInv(s) && SlotInv(c, s) && StoredInv(s)
    ensures StoredInv(Final(c, s, run))
    decreases |run|
  {
    if run != [] {
      assert Succeeds(run[0]);
      ControlStep(c, s, run[0]);
      SlotStep(c, s, run[0]);
      assert StoredInv(Apply(c, s, run[0]));
      StoredAlong(c, Apply(c, s, run[0]), run[1..]);
    }
  }

  /** When the writes succeed, the stored status agrees with the pool between writes. */
  lemma StoredStatusAgrees(l: Launch, run: seq<Event>)
    requires IsRun(l, run) && AllSucceed(run) && l.records.dbStatus == Running
    requires End(l, run).command.Free? && !End(l, run).loc.SavingCompletion?
    ensures End(l, run).records.dbStatus == End(l, run).status
  {
    StoredAlong(l.campaign, Initial(l), run);
  }

  /**
    That holds for every run exactly when the row said running at the launch: CreateAndStart writes that, ResumeCampaign
    does not, so a pool rebuilt from a paused row runs under a row that says paused.
   */
  lemma StoredStatusAgreesExactly(l: Launch)
    ensures (forall run :: IsRun(l, run) && AllSucceed(run)
                           && End(l, run).command.Free? && !End(l, run).loc.SavingCompletion?
                           ==> End(l, run).records.dbStatus == End(l, run).status)
            <==> l.records.dbStatus == Running
  {
    if l.records.dbStatus == Running {
      forall run | IsRun(l, run) && AllSucceed(run) && End(l, run).command.Free? && !End(l, run).loc.SavingCompletion?
        ensures End(l, run).records.dbStatus == End(l, run).status
      {
        StoredStatusAgrees(l, run);
      }
    } else {
      assert IsRun(l, []) && AllSucceed([]) && End(l, []) == Initial(l);
    }
  }

  // ---- progress ----

  /** Goroutine, dispatcher or command can always move until the dispatcher has halted and all dials are gone. */
  lemma NoDeadlock(l: Launch, run: seq<Event>)
    requires IsRun(l, run)
    ensures var s := End(l, run);
      || (s.loc.Halted? && forall i :: 0 <= i < |s.workers| ==> s.workers[i].stage.Gone?)
      || (exists i :: 0 <= i < |s.workers| && CanDial(s, i))
      || CanDispatch(l.campaign, s)
      || !s.command.Free?
  {
    var s := End(l, run);
    Flow(l, run, 0);
    if forall i :: 0 <= i < |s.workers| ==> s.workers[i].stage.Gone? {
      SumIsZero(HoldsSlot(), s.workers);
      SumIsZero(NotGone(), s.workers);
    } else {
      var i :| 0 <= i < |s.workers| && !s.workers[i].stage.Gone?;
      assert CanDial(s, i);
    }
  }

  /** A pool that was never stopped halts only by completing. */
  lemma HaltsOnlyCompleted(l: Launch, run: seq<Event>)
    requires IsRun(l, run) && End(l, run).loc.Halted?
    ensures End(l, run).status == Completed || End(l, run).cancelled
    ensures NoStop(run) ==> End(l, run).status == Completed
  {
    Flow(l, run, 0);
    if NoStop(run) { NoStopAlong(l.campaign, Initial(l), run); }
  }

  function LocRank(loc: DispatcherLoc): nat {
    match loc
    case Starting => 10 case Polling => 9 case Reading => 8 case Gating => 7 case Popping => 6
    case Holding(_) => 5 case Launching(_) => 4 case Draining => 5 case Finishing => 4
    case SavingCompletion => 3 case CachingCompletion => 2 case Announcing => 1 case Halted => 0
  }

  function StagesLeft(): Worker -> int { (w: Worker) => 14 - Rank(w.stage) }

  /** An iteration of the dispatch loop that went back to the top without a contact. */
  predicate IsPoll(c: Campaign, s: State, e: Event)
    requires Enabled(c, s, e)
  {
    e.Dispatch? && (s.loc.Reading? || s.loc.Gating? || s.loc.Popping?) && Apply(c, s, e).loc.Polling?
  }

  /** Steps that do not bring the campaign nearer to its end: polls, commands, and failed operations. */
  function Cost(c: Campaign, s: State, e: Event): nat
    requires Enabled(c, s, e)
  {
    if e.Issue? || e.Carry? then 1
    else if IsPoll(c, s, e) then 4
    else if e.Dial? && !e.reply.ok then 20
    else 0
  }

  function Costs(c: Campaign, s: State, run: seq<Event>): nat
    requires Feasible(c, s, run)
    decreases |run|
  {
    if run == [] then 0 else Cost(c, s, run[0]) + Costs(c, Apply(c, s, run[0]), run[1..])
  }

  /** Work still ahead, given a bound on how many dials will ever be launched. */
  function WorkLeft(s: State, launches: int): int {
    20 * (launches + Sum(AnyUnsaved(), s.workers) - |s.workers|) + Sum(StagesLeft(), s.workers) + LocRank(s.loc)
  }

  lemma WorkDial(c: Campaign, s: State, i: nat, r: Reply, launches: int)
    requires CanDial(s, i) && WorkerOk(c, s.workers[i])
    ensures WorkLeft(DialStep(c, s, i, r), launches) + 1 <= WorkLeft(s, launches) + (if r.ok then 0 else 20)
  {
    SumStep(c, s, Dial(i, r), AnyUnsaved());
    SumStep(c, s, Dial(i, r), StagesLeft());
    UnsavedDelta(c, s, s.workers[i], r);
    DialWorkers(c, s, i, r);
  }

  lemma UnsavedDelta(c: Campaign, s: State, w: Worker, r: Reply)
    requires WorkerOk(c, w) && !w.stage.Gone?
    ensures AnyUnsaved()(NextWorker(c, s, w, r)) <= AnyUnsaved()(w) + (if r.ok then 0 else 1)
    ensures StagesLeft()(NextWorker(c, s, w, r)) < StagesLeft()(w)
  {
  }

  lemma WorkStep(c: Campaign, s: State, e: Event, launches: int)
    requires Enabled(c, s, e) && ShapeInv(c, s)
    ensures WorkLeft(Apply(c, s, e), launches) + 1 <= WorkLeft(s, launches) + Cost(c, s, e)
  {
    match e
    case Dial(i, r) => WorkDial(c, s, i, r, launches);
    case Dispatch(_) =>
    case Issue(_) => assert Apply(c, s, e).workers == s.workers && Apply(c, s, e).loc == s.loc;
    case Carry(_) => assert Apply(c, s, e).workers == s.workers && Apply(c, s, e).loc == s.loc;
  }

  lemma {:induction false} WorkAlong(c: Campaign, s: State, run: seq<Event>, launches: int)
    requires Feasible(c, s, run) && ShapeInv(c, s)
    ensures |run| + WorkLeft(Final(c, s, run), launches) <= WorkLeft(s, launches) + Costs(c, s, run)
    decreases |run|
  {
    if run != [] {
      ShapeStep(c, s, run[0]);
      WorkStep(c, s, run[0], launches);
      WorkAlong(c, Apply(c, s, run[0]), run[1..], launches);
    }
  }

  /**
    A run can only go on for ever by polling, by receiving commands, or by failing: apart from those, a campaign of N
    contacts is over after 20 * N * (max(RetryMax, 0) + 1) + 10 steps.
   */
  lemma StepBound(l: Launch, run: seq<Event>)
    requires IsRun(l, run) && Distinct(l.ids) && forall id :: id in l.rows ==> l.rows[id].attempts >= 0
    ensures |run| <= 20 * (|l.ids| * (Max(l.campaign.retryMax, 0) + 1)) + 10 + Costs(l.campaign, Initial(l), run)
  {
    var s, launches := End(l, run), |l.ids| * (Max(l.campaign.retryMax, 0) + 1);
    WorkAlong(l.campaign, Initial(l), run, launches);
    TotalCalls(l, run);
    SumNonNegative(StagesLeft(), s.workers);
  }
}
