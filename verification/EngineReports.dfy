/** What a campaign's counters, snapshots and callbacks say. */
module EngineReports {
  import opened Wrappers
  import opened CampaignDomain
  import opened DialEngine
  import opened EngineInvariants
  import opened EngineBooks
  import opened EngineRuns
  import opened Sums

  ghost predicate Quiescent(s: State) {
    forall i :: 0 <= i < |s.workers| ==> s.workers[i].stage.Gone?
  }

  /**
    In every state the database lags memory by what it lagged at the launch, plus exactly the dials counted but not (or
    not successfully) credited.
   */
  lemma DatabaseLag(l: Launch, run: seq<Event>, k: Counter)
    requires IsRun(l, run)
    ensures var s := End(l, run);
      s.books.progress.counters.At(k) - s.books.dbCounters.At(k)
      == l.campaign.counters.At(k) - l.stored.At(k) + Sum(Uncredited(k), s.workers)
  {
    var s := End(l, run);
    Accounts(l, run, k);
    forall i | 0 <= i < |s.workers|
      ensures Credited(k)(s.workers[i]) + Uncredited(k)(s.workers[i]) == Counted(k)(s.workers[i])
    {
      assert WorkerOk(l.campaign, s.workers[i]);
    }
    SumPlus(Credited(k), Uncredited(k), Counted(k), s.workers);
  }

  /** The database lags memory by as much as it did at the launch. */
  ghost predicate LagKept(l: Launch, b: Books) {
    forall k: Counter ::
      b.progress.counters.At(k) - b.dbCounters.At(k) == l.campaign.counters.At(k) - l.stored.At(k)
  }

  lemma LagKeptMeansEqual(l: Launch, b: Books)
    requires l.stored == l.campaign.counters
    ensures LagKept(l, b) <==> b.dbCounters == b.progress.counters
  {
    if LagKept(l, b) {
      forall k: Counter ensures b.dbCounters.At(k) == b.progress.counters.At(k) {
        assert b.progress.counters.At(k) - b.dbCounters.At(k) == l.campaign.counters.At(k) - l.stored.At(k);
      }
      var p, q := b.dbCounters, b.progress.counters;
      assert p.At(CountDialed) == q.At(CountDialed) && p.At(CountAnswered) == q.At(CountAnswered);
      assert p.At(CountFailed) == q.At(CountFailed) && p.At(CountBusy) == q.At(CountBusy);
      assert p.At(CountNoAnswer) == q.At(CountNoAnswer);
    }
  }

  /**
    The lag of the launch is kept exactly when every counted dial has been credited; from a row that agrees with the
    campaign that is when database and memory agree.
   */
  lemma DatabaseAgrees(l: Launch, run: seq<Event>)
    requires IsRun(l, run)
    ensures var s := End(l, run);
      var credited := forall i :: 0 <= i < |s.workers| && IsCounted(s.workers[i]) ==> s.workers[i].credited;
      && (LagKept(l, s.books) <==> credited)
      && (l.stored == l.campaign.counters ==> (s.books.dbCounters == s.books.progress.counters <==> credited))
  {
    var s := End(l, run);
    if l.stored == l.campaign.counters { LagKeptMeansEqual(l, s.books); }
    if forall i :: 0 <= i < |s.workers| && IsCounted(s.workers[i]) ==> s.workers[i].credited {
      forall k: Counter
        ensures s.books.progress.counters.At(k) - s.books.dbCounters.At(k) == l.campaign.counters.At(k) - l.stored.At(k)
      {
        DatabaseLag(l, run, k);
        SumIsZero(Uncredited(k), s.workers);
      }
    } else {
      var i :| 0 <= i < |s.workers| && IsCounted(s.workers[i]) && !s.workers[i].credited;
      DatabaseLag(l, run, CountDialed);
      SumAtLeastOne(Uncredited(CountDialed), s.workers, i);
    }
  }

  /** When no write fails, the lag of the launch is what remains once all dials are gone. */
  lemma LagAtQuiescence(l: Launch, run: seq<Event>)
    requires IsRun(l, run) && AllSucceed(run) && Quiescent(End(l, run))
    ensures LagKept(l, End(l, run).books)
  {
    var s := End(l, run);
    SuccessAlong(l, Initial(l), run);
    forall i | 0 <= i < |s.workers| && IsCounted(s.workers[i]) ensures s.workers[i].credited {
      assert WorkerSucceeded(l, s.workers[i]);
    }
    DatabaseAgrees(l, run);
  }

  /**
    In every run in which no write fails, database and memory agree once all dials are gone, exactly when the stored
    counters were the campaign's at the launch.  A campaign that is started again on a row with counters fails that.
   */
  lemma AgreementAtQuiescence(l: Launch)
    ensures (forall run :: IsRun(l, run) && AllSucceed(run) && Quiescent(End(l, run))
               ==> End(l, run).books.dbCounters == End(l, run).books.progress.counters)
            <==> l.stored == l.campaign.counters
  {
    if l.stored == l.campaign.counters {
      forall run | IsRun(l, run) && AllSucceed(run) && Quiescent(End(l, run))
        ensures End(l, run).books.dbCounters == End(l, run).books.progress.counters
      {
        LagAtQuiescence(l, run);
        LagKeptMeansEqual(l, End(l, run).books);
      }
    } else {
      assert IsRun(l, []) && AllSucceed([]) && End(l, []) == Initial(l) && Quiescent(Initial(l));
    }
  }

  /** `p` was once the true progress, and memory has only grown since. */
  predicate WasTrue(b: Books, p: Progress) {
    p in b.reached && AtMost(p.counters, b.progress.counters)
  }

  /** Everything sent was once the true progress and is never ahead of memory; so is the cache, once it is written. */
  lemma PublishedWasReached(l: Launch, run: seq<Event>)
    requires IsRun(l, run)
    ensures var b := End(l, run).books;
      && (forall k :: 0 <= k < |b.progressCalls| ==> WasTrue(b, b.progressCalls[k]))
      && (b.cachedProgress == l.cachedProgress || (b.cachedProgress.Some? && WasTrue(b, b.cachedProgress.value)))
  {
    Accounts(l, run, CountDialed);
    var b := End(l, run).books;
    forall p | WasReached(b, p) ensures WasTrue(b, p) {
      var j :| 0 <= j < |b.reached| && b.reached[j] == p;
      assert AtMost(b.reached[j].counters, b.progress.counters);
    }
    forall k | 0 <= k < |b.progressCalls| ensures WasTrue(b, b.progressCalls[k]) {
      assert WasReached(b, b.progressCalls[k]);
    }
  }

  /** The completion callback has not been made, or the dispatcher has made it once and has halted. */
  ghost predicate CompletionInv(l: Launch, s: State) {
    var before := l.records.completedCalls;
    || s.records.completedCalls == before
    || (s.loc.Halted? && exists p :: WasReached(s.books, p) && s.records.completedCalls == before + [p])
  }

  lemma {:induction false} CompletionAlong(l: Launch, s: State, run: seq<Event>)
    requires Feasible(l.campaign, s, run) && CompletionInv(l, s) && SnapshotInv(l, s)
    ensures CompletionInv(l, Final(l.campaign, s, run))
    decreases |run|
  {
    if run != [] {
      SnapshotStep(l, s, run[0]);
      CompletionAlong(l, Apply(l.campaign, s, run[0]), run[1..]);
    }
  }

  /** The completion callback is made at most once, with a progress that was once the true one. */
  lemma CompletionCallback(l: Launch, run: seq<Event>)
    requires IsRun(l, run)
    ensures var s := End(l, run); var before := l.records.completedCalls;
      || s.records.completedCalls == before
      || (|s.records.completedCalls| == |before| + 1 && before <= s.records.completedCalls
          && s.records.completedCalls[|before|] in s.books.reached)
  {
    CompletionAlong(l, Initial(l), run);
  }

  /**
    At quiescence n updates have caused n/5 progress callbacks and, besides, only callbacks for updates that left
    nothing to dial, each of which has one.
   */
  lemma CallbackFrequency(l: Launch, run: seq<Event>)
    requires IsRun(l, run) && Quiescent(End(l, run))
    ensures var s := End(l, run);
      && s.books.dialCount == s.books.progress.counters.dialed - l.campaign.counters.dialed
      && s.books.dialCount / 5 <= |s.books.progressCalls| <= s.books.dialCount / 5 + Sum(LeftNothing(), s.workers)
      && Sum(LeftNothing(), s.workers) <= |s.books.progressCalls|
  {
    var s := End(l, run);
    Accounts(l, run, CountDialed);
    SumIsZero(AwaitingNotice(), s.workers);
    SumAtMost(Counted(CountDialed), Tallied(), s.workers);
    SumAtMost(Tallied(), Counted(CountDialed), s.workers);
  }

  // ---- which column an outcome goes to ----

  function CountedAs(statuses: set<ContactStatus>): Worker -> int {
    (w: Worker) => if IsCounted(w) && w.status in statuses then 1 else 0
  }

  function CreditedAs(statuses: set<ContactStatus>): Worker -> int {
    (w: Worker) => if w.credited && w.status in statuses then 1 else 0
  }

  lemma {:induction false} SameWeights(f: Worker -> int, g: Worker -> int, ws: seq<Worker>)
    requires forall i :: 0 <= i < |ws| ==> f(ws[i]) == g(ws[i])
    ensures Sum(f, ws) == Sum(g, ws)
  {
    SumAtMost(f, g, ws);
    SumAtMost(g, f, ws);
  }

  lemma ColumnHolds(l: Launch, run: seq<Event>, k: Counter, statuses: set<ContactStatus>)
    requires IsRun(l, run)
    requires forall status :: Delta(status).At(k) == if status in statuses then 1 else 0
    ensures var s := End(l, run);
      && s.books.progress.counters.At(k) == l.campaign.counters.At(k) + Sum(CountedAs(statuses), s.workers)
      && s.books.dbCounters.At(k) == l.stored.At(k) + Sum(CreditedAs(statuses), s.workers)
  {
    var s := End(l, run);
    Accounts(l, run, k);
    SameWeights(Counted(k), CountedAs(statuses), s.workers);
    SameWeights(Credited(k), CreditedAs(statuses), s.workers);
  }

  const EVERY_STATUS := {Pending, InDialing, Answered, NoAnswer, Busy, Failed, Dnc}

  /** In every run each counter in memory is what it was at the launch plus the dials counted with its own outcomes. */
  lemma CountersByOutcome(l: Launch, run: seq<Event>)
    requires IsRun(l, run)
    ensures var s := End(l, run); var p, before := s.books.progress.counters, l.campaign.counters;
      && p.dialed == before.dialed + Sum(CountedAs(EVERY_STATUS), s.workers)
      && p.answered == before.answered + Sum(CountedAs({Answered}), s.workers)
      && p.failed == before.failed + Sum(CountedAs({Failed, Dnc}), s.workers)
      && p.busy == before.busy + Sum(CountedAs({Busy}), s.workers)
      && p.noAnswer == before.noAnswer + Sum(CountedAs({NoAnswer}), s.workers)
  {
    ColumnHolds(l, run, CountDialed, EVERY_STATUS);
    ColumnHolds(l, run, CountAnswered, {Answered});
    ColumnHolds(l, run, CountFailed, {Failed, Dnc});
    ColumnHolds(l, run, CountBusy, {Busy});
    ColumnHolds(l, run, CountNoAnswer, {NoAnswer});
  }

  /** And each stored counter is what it was plus the dials credited with its own outcomes. */
  lemma StoredByOutcome(l: Launch, run: seq<Event>)
    requires IsRun(l, run)
    ensures var s := End(l, run); var d, before := s.books.dbCounters, l.stored;
      && d.dialed == before.dialed + Sum(CreditedAs(EVERY_STATUS), s.workers)
      && d.answered == before.answered + Sum(CreditedAs({Answered}), s.workers)
      && d.failed == before.failed + Sum(CreditedAs({Failed, Dnc}), s.workers)
      && d.busy == before.busy + Sum(CreditedAs({Busy}), s.workers)
      && d.noAnswer == before.noAnswer + Sum(CreditedAs({NoAnswer}), s.workers)
  {
    ColumnHolds(l, run, CountDialed, EVERY_STATUS);
    ColumnHolds(l, run, CountAnswered, {Answered});
    ColumnHolds(l, run, CountFailed, {Failed, Dnc});
    ColumnHolds(l, run, CountBusy, {Busy});
    ColumnHolds(l, run, CountNoAnswer, {NoAnswer});
  }

  /**
    From a row whose counters add up, the counters add up in exactly the states in which no counted dial ended with a
    status outside the four outcomes and the do-not-call skip.
   */
  lemma OutcomesAddUp(l: Launch, run: seq<Event>)
    requires IsRun(l, run) && l.campaign.counters.Uncategorised() == 0
    ensures var s := End(l, run);
      s.books.progress.counters.Uncategorised() == 0
      <==> forall i :: 0 <= i < |s.workers| && IsCounted(s.workers[i]) ==> s.workers[i].status !in {Pending, InDialing}
  {
    var s := End(l, run);
    Accounts(l, run, CountDialed);
    if forall i :: 0 <= i < |s.workers| && IsCounted(s.workers[i]) ==> s.workers[i].status !in {Pending, InDialing} {
      SumIsZero(Unplaced(), s.workers);
    } else {
      var i :| 0 <= i < |s.workers| && IsCounted(s.workers[i]) && s.workers[i].status in {Pending, InDialing};
      SumAtLeastOne(Unplaced(), s.workers, i);
    }
  }

  lemma {:induction false} CreditedAddUp(ws: seq<Worker>)
    requires forall i :: 0 <= i < |ws| && ws[i].credited ==> ws[i].status !in {Pending, InDialing}
    ensures Sum(Credited(CountDialed), ws) == Sum(Credited(CountAnswered), ws) + Sum(Credited(CountFailed), ws)
                                           + Sum(Credited(CountBusy), ws) + Sum(Credited(CountNoAnswer), ws)
  {
    if ws != [] { CreditedAddUp(ws[..|ws| - 1]); }
  }

  /**
    A stored row that adds up at the launch adds up in every state too, whatever writes failed, so a pool that
    ResumeCampaign rebuilds from it starts from counters that add up.
   */
  lemma StoredOutcomesAddUp(l: Launch, run: seq<Event>)
    requires IsRun(l, run) && l.stored.Uncategorised() == 0
    requires forall i :: 0 <= i < |End(l, run).workers| && IsCounted(End(l, run).workers[i])
               ==> End(l, run).workers[i].status !in {Pending, InDialing}
    ensures End(l, run).books.dbCounters.Uncategorised() == 0
  {
    var s := End(l, run);
    Accounts(l, run, CountDialed);
    Accounts(l, run, CountAnswered);
    Accounts(l, run, CountFailed);
    Accounts(l, run, CountBusy);
    Accounts(l, run, CountNoAnswer);
    forall i | 0 <= i < |s.workers| && s.workers[i].credited ensures s.workers[i].status !in {Pending, InDialing} {
      assert WorkerOk(l.campaign, s.workers[i]);
    }
    CreditedAddUp(s.workers);
  }

  // ---- what the providers report ----

  /** A provider reports what ClassifyOutcome makes of some status text, or an error. */
  ghost predicate Classified(e: Event) {
    e.Dial? && e.reply.outcome.Some? ==> exists text :: e.reply.outcome.value == ClassifyOutcome(text)
  }

  ghost predicate AllClassified(run: seq<Event>) {
    forall k :: 0 <= k < |run| ==> Classified(run[k])
  }

  /** Once a goroutine has an outcome, it is one the counters have a column for. */
  predicate Placed(w: Worker) {
    Rank(w.stage) >= 5 && !w.fate.Missing? ==> w.status !in {Pending, InDialing}
  }

  predicate PlacedInv(s: State) {
    forall i :: 0 <= i < |s.workers| ==> Placed(s.workers[i])
  }

  lemma {:induction false} PlacedAlong(c: Campaign, s: State, run: seq<Event>)
    requires Feasible(c, s, run) && AllClassified(run) && ShapeInv(c, s) && PlacedInv(s)
    ensures PlacedInv(Final(c, s, run))
    decreases |run|
  {
    if run != [] {
      assert Classified(run[0]);
      ShapeStep(c, s, run[0]);
      PlacedAlong(c, Apply(c, s, run[0]), run[1..]);
    }
  }

  /**
    Whatever texts the provider reports, and whatever writes fail, from a row that adds up both the counters in memory
    and those in the database add up in every state, so they also do in a pool rebuilt from that row.
   */
  lemma ProviderOutcomesAddUp(l: Launch, run: seq<Event>)
    requires IsRun(l, run) && AllClassified(run)
    ensures l.campaign.counters.Uncategorised() == 0 ==> End(l, run).books.progress.counters.Uncategorised() == 0
    ensures l.stored.Uncategorised() == 0 ==> End(l, run).books.dbCounters.Uncategorised() == 0
  {
    PlacedAlong(l.campaign, Initial(l), run);
    forall i | 0 <= i < |End(l, run).workers| && IsCounted(End(l, run).workers[i])
      ensures End(l, run).workers[i].status !in {Pending, InDialing}
    {
      assert Placed(End(l, run).workers[i]);
    }
    if l.campaign.counters.Uncategorised() == 0 { OutcomesAddUp(l, run); }
    if l.stored.Uncategorised() == 0 { StoredOutcomesAddUp(l, run); }
  }

  /**
    `Remaining` is max(0, Total - Dialed) in every state of every run exactly when the row the pool was built from has
    no more dials than contacts; a fresh campaign always qualifies, one resumed after retries need not.
   */
  lemma RemainingIsClamped(l: Launch)
    ensures (forall run :: IsRun(l, run) ==>
               End(l, run).books.progress.remaining == ClampedRemaining(l.campaign, End(l, run).books.progress))
            <==> l.campaign.counters.dialed <= l.campaign.totalContacts
  {
    if l.campaign.counters.dialed <= l.campaign.totalContacts {
      forall run | IsRun(l, run)
        ensures End(l, run).books.progress.remaining == ClampedRemaining(l.campaign, End(l, run).books.progress)
      {
        Accounts(l, run, CountDialed);
      }
    } else {
      assert IsRun(l, []) && End(l, []) == Initial(l);
      assert Initial(l).books.progress.remaining < 0;
    }
  }

  lemma {:induction false} CacheAlong(c: Campaign, s: State, run: seq<Event>)
    requires Feasible(c, s, run) && AllSucceed(run) && SlotInv(c, s) && CacheInv(s) && Capacity(c.concurrency) == 1
    ensures CacheInv(Final(c, s, run))
    decreases |run|
  {
    if run != [] {
      assert Succeeds(run[0]);
      SlotStep(c, s, run[0]);
      CacheStep(c, s, run[0]);
      CacheAlong(c, Apply(c, s, run[0]), run[1..]);
    }
  }

  /** With one slot the cached progress is the true one once all dials are gone. */
  lemma SequentialCacheAgrees(l: Launch, run: seq<Event>)
    requires IsRun(l, run) && AllSucceed(run) && Quiescent(End(l, run)) && Capacity(l.campaign.concurrency) == 1
    requires |End(l, run).books.reached| > 1
    ensures End(l, run).books.cachedProgress == Some(End(l, run).books.progress)
  {
    CacheAlong(l.campaign, Initial(l), run);
  }
}
