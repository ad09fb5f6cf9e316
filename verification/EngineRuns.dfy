/** What holds in every state that any run of a campaign reaches. */
module EngineRuns {
  import opened CampaignDomain
  import opened DialEngine
  import opened EngineInvariants
  import opened EngineRedial
  import opened EngineBooks
  import opened Sums

  ghost predicate Distinct(ids: seq<ContactId>) {
    forall id :: Count(ids, id) <= 1
  }

  // ---- induction over runs ----

  predicate FlowInv(l: Launch, s: State, id: ContactId) {
    && ShapeInv(l.campaign, s)
    && SlotInv(l.campaign, s)
    && PlaceInv(l, s, id)
    && CancelInv(s)
    && ControlInv(s)
    && EndingInv(l.campaign, s)
    && (Count(l.ids, id) <= 1 ==> RedialInv(l, s, id) && OrderInv(s, id))
  }

  lemma {:induction false} FlowAlong(l: Launch, s: State, run: seq<Event>, id: ContactId)
    requires Feasible(l.campaign, s, run) && FlowInv(l, s, id)
    ensures FlowInv(l, Final(l.campaign, s, run), id)
    decreases |run|
  {
    if run != [] {
      var e := run[0];
      ShapeStep(l.campaign, s, e);
      SlotStep(l.campaign, s, e);
      PlaceStep(l, s, e, id);
      CancelStep(l.campaign, s, e);
      ControlStep(l.campaign, s, e);
      EndingStep(l.campaign, s, e);
      if Count(l.ids, id) <= 1 {
        RedialStep(l, s, e, id);
        OrderStep(l, s, e, id);
      }
      FlowAlong(l, Apply(l.campaign, s, e), run[1..], id);
    }
  }

  lemma Flow(l: Launch, run: seq<Event>, id: ContactId)
    requires IsRun(l, run)
    ensures FlowInv(l, End(l, run), id)
  {
    FlowAlong(l, Initial(l), run, id);
  }

  predicate BooksInv(l: Launch, s: State, k: Counter) {
    && ShapeInv(l.campaign, s)
    && CounterInv(l, s, k)
    && NoticeInv(s)
    && OutcomeInv(l, s)
    && RemainingInv(l.campaign, s.books)
    && SnapshotInv(l, s)
  }

  lemma {:induction false} BooksAlong(l: Launch, s: State, run: seq<Event>, k: Counter)
    requires Feasible(l.campaign, s, run) && BooksInv(l, s, k)
    ensures BooksInv(l, Final(l.campaign, s, run), k)
    decreases |run|
  {
    if run != [] {
      var e := run[0];
      ShapeStep(l.campaign, s, e);
      CounterStep(l, s, e, k);
      NoticeStep(l.campaign, s, e);
      OutcomeStep(l, s, e);
      SnapshotStep(l, s, e);
      BooksAlong(l, Apply(l.campaign, s, e), run[1..], k);
    }
  }

  lemma Accounts(l: Launch, run: seq<Event>, k: Counter)
    requires IsRun(l, run)
    ensures BooksInv(l, End(l, run), k)
  {
    BooksAlong(l, Initial(l), run, k);
  }

  lemma {:induction false} SuccessAlong(l: Launch, s: State, run: seq<Event>)
    requires Feasible(l.campaign, s, run) && AllSucceed(run) && ShapeInv(l.campaign, s) && SuccessInv(l, s)
    ensures SuccessInv(l, Final(l.campaign, s, run))
    decreases |run|
  {
    if run != [] {
      ShapeStep(l.campaign, s, run[0]);
      SuccessAlong(l, Apply(l.campaign, s, run[0]), run[1..]);
    }
  }

  lemma {:induction false} NoStopAlong(c: Campaign, s: State, run: seq<Event>)
    requires Feasible(c, s, run) && NoStop(run) && !s.cancelled
    ensures !Final(c, s, run).cancelled
    decreases |run|
  {
    if run != [] {
      assert run[0] != Issue(Stop);
      NoStopAlong(c, Apply(c, s, run[0]), run[1..]);
    }
  }

  // ---- concurrency ----

  /** Slots in use are the unreleased goroutines plus a dispatcher about to spawn; calls never exceed the clamp. */
  lemma ConcurrencyCap(l: Launch, run: seq<Event>)
    requires IsRun(l, run)
    ensures var s := End(l, run);
      && Sum(InCall(), s.workers) <= s.slots <= Capacity(l.campaign.concurrency) <= 10
      && s.slots == Sum(HoldsSlot(), s.workers) + (if s.loc.Launching? then 1 else 0)
      && s.pending == Sum(NotGone(), s.workers)
  {
    Flow(l, run, 0);
    SumAtMost(InCall(), HoldsSlot(), End(l, run).workers);
  }

  // ---- conservation of work ----

  function Settledness(s: State, id: ContactId): int {
    Sum(WithFate(id, Settled), s.workers)
  }

  function Failures(s: State, id: ContactId): int {
    Sum(WithFate(id, Abandoned), s.workers) + Sum(WithFate(id, Missing), s.workers)
  }

  lemma {:induction false} KeptSplits(ws: seq<Worker>, id: ContactId)
    ensures Sum(Kept(id), ws) == Sum(WithFate(id, Owned), ws) + Sum(WithFate(id, Settled), ws)
                               + Sum(WithFate(id, Abandoned), ws) + Sum(WithFate(id, Missing), ws)
  {
    if ws != [] { KeptSplits(ws[..|ws| - 1], id); }
  }

  /**
    In every run, with or without Stop and failures, each queued contact is in exactly one place: the queue, the
    dispatcher's hand, a goroutine, finished, failed, or dropped by Stop.
   */
  lemma WorkConserved(l: Launch, run: seq<Event>, id: ContactId)
    requires IsRun(l, run)
    ensures var s := End(l, run);
      Count(s.queue, id) + Hand(s.loc, id) + Sum(WithFate(id, Owned), s.workers)
      + Settledness(s, id) + Failures(s, id) + Count(s.dropped, id) == Count(l.ids, id)
  {
    Flow(l, run, id);
    KeptSplits(End(l, run).workers, id);
  }

  /** Without Stop, and when operations succeed, no contact that has a row is lost or duplicated. */
  lemma NothingLost(l: Launch, run: seq<Event>, id: ContactId)
    requires IsRun(l, run) && NoStop(run) && AllSucceed(run) && id in l.rows
    ensures var s := End(l, run);
      Count(s.queue, id) + Hand(s.loc, id) + Sum(WithFate(id, Owned), s.workers) + Settledness(s, id)
      == Count(l.ids, id)
  {
    var s := End(l, run);
    WorkConserved(l, run, id);
    NoStopAlong(l.campaign, Initial(l), run);
    Flow(l, run, id);
    SuccessAlong(l, Initial(l), run);
    forall i | 0 <= i < |s.workers|
      ensures WithFate(id, Abandoned)(s.workers[i]) == 0 && WithFate(id, Missing)(s.workers[i]) == 0
    {
      assert WorkerSucceeded(l, s.workers[i]);
    }
    SumIsZero(WithFate(id, Abandoned), s.workers);
    SumIsZero(WithFate(id, Missing), s.workers);
  }

  function HandedBack(): Worker -> int { (w: Worker) => if w.fate.Requeued? then 1 else 0 }

  /** Every contact launched came from the queue of the launch, or was handed back for a retry. */
  predicate LaunchInv(l: Launch, s: State) {
    |s.queue| + InDispatcher(s.loc) + |s.workers| + |s.dropped| == |l.ids| + Sum(HandedBack(), s.workers)
  }

  lemma LaunchStep(l: Launch, s: State, e: Event)
    requires Enabled(l.campaign, s, e) && ShapeInv(l.campaign, s) && LaunchInv(l, s)
    ensures LaunchInv(l, Apply(l.campaign, s, e))
  {
    match e
    case Dial(i, r) => LaunchDial(l, s, i, r);
    case Dispatch(_) =>
    case _ => assert Apply(l.campaign, s, e).workers == s.workers && Apply(l.campaign, s, e).loc == s.loc;
  }

  lemma LaunchDial(l: Launch, s: State, i: nat, r: Reply)
    requires CanDial(s, i) && ShapeInv(l.campaign, s) && LaunchInv(l, s)
    ensures LaunchInv(l, DialStep(l.campaign, s, i, r))
  {
    SumStep(l.campaign, s, Dial(i, r), HandedBack());
  }

  lemma {:induction false} LaunchAlong(l: Launch, s: State, run: seq<Event>)
    requires Feasible(l.campaign, s, run) && ShapeInv(l.campaign, s) && LaunchInv(l, s)
    ensures LaunchInv(l, Final(l.campaign, s, run)) && ShapeInv(l.campaign, Final(l.campaign, s, run))
    decreases |run|
  {
    if run != [] {
      ShapeStep(l.campaign, s, run[0]);
      LaunchStep(l, s, run[0]);
      LaunchAlong(l, Apply(l.campaign, s, run[0]), run[1..]);
    }
  }

  /**
    In every run, whatever fails and however often a contact was queued, the dials launched are the contacts queued at
    first and the retries, less what is still queued, in the dispatcher's hand or dropped.  Without retries there is at
    most one launch for each place in the queue.
   */
  lemma LaunchesAddUp(l: Launch, run: seq<Event>)
    requires IsRun(l, run)
    ensures var s := End(l, run);
      && |s.workers| == |l.ids| + Sum(HandedBack(), s.workers) - |s.queue| - InDispatcher(s.loc) - |s.dropped|
      && (l.campaign.retryMax <= 0 ==> Sum(HandedBack(), s.workers) == 0 && |s.workers| + |s.queue| <= |l.ids|)
  {
    LaunchAlong(l, Initial(l), run);
    if l.campaign.retryMax <= 0 {
      var ws := End(l, run).workers;
      forall i | 0 <= i < |ws| ensures HandedBack()(ws[i]) == 0 { assert WorkerOk(l.campaign, ws[i]); }
      SumIsZero(HandedBack(), ws);
    }
  }

  // ---- completion ----

  /** Contact `id` was queued again after a busy or unanswered call, within the retry limit. */
  predicate IsRetry(c: Campaign, s: State, id: ContactId) {
    exists i :: 0 <= i < |s.workers| && s.workers[i].id == id && s.workers[i].fate.Requeued?
      && (s.workers[i].status == Busy || s.workers[i].status == NoAnswer)
      && s.workers[i].attempts < c.retryMax
  }

  /** A completed campaign has no dial in flight; what is still queued are stranded retries, at most one per slot. */
  lemma Completion(l: Launch, run: seq<Event>)
    requires IsRun(l, run) && End(l, run).status == Completed
    ensures var s := End(l, run);
      && (forall i :: 0 <= i < |s.workers| ==> s.workers[i].stage.Gone?)
      && |s.queue| <= Capacity(l.campaign.concurrency)
      && (forall k :: 0 <= k < |s.queue| ==> IsRetry(l.campaign, s, s.queue[k]))
      && (l.campaign.retryMax <= 0 ==> s.queue == [])
  {
    var s := End(l, run);
    Flow(l, run, 0);
    forall i | 0 <= i < |s.workers| ensures s.workers[i].stage.Gone? { NoneLeft(s.workers, i); }
    SumNonNegative(InHand(), s.workers);
    forall k | 0 <= k < |s.queue| ensures IsRetry(l.campaign, s, s.queue[k]) && l.campaign.retryMax > 0 {
      assert HasRetry(s.workers, s.queue[k]);
      var i :| 0 <= i < |s.workers| && s.workers[i].id == s.queue[k] && s.workers[i].fate.Requeued?;
      assert WorkerOk(l.campaign, s.workers[i]);
    }
    if s.queue != [] {
      var first := s.queue[0];
      assert IsRetry(l.campaign, s, first);
    }
  }

  function CountedOf(id: ContactId): Worker -> int { (w: Worker) => if w.id == id && IsCounted(w) then 1 else 0 }

  /** Without retries, Stop and failures, a completed campaign has dialed every contact once and counted it once. */
  lemma EachContactOnce(l: Launch, run: seq<Event>, id: ContactId)
    requires IsRun(l, run) && End(l, run).status == Completed
    requires NoStop(run) && AllSucceed(run) && l.campaign.retryMax <= 0 && Count(l.ids, id) == 1 && id in l.rows
    ensures var s := End(l, run);
      && Sum(Spawned(id), s.workers) == 1 && Sum(CountedOf(id), s.workers) == 1
  {
    var s := End(l, run);
    Completion(l, run);
    NothingLost(l, run, id);
    Flow(l, run, id);
    SuccessAlong(l, Initial(l), run);
    forall i | 0 <= i < |s.workers|
      ensures Spawned(id)(s.workers[i]) == CountedOf(id)(s.workers[i]) == WithFate(id, Settled)(s.workers[i])
      ensures WithFate(id, Owned)(s.workers[i]) == 0
    {
      assert WorkerOk(l.campaign, s.workers[i]) && WorkerSucceeded(l, s.workers[i]);
    }
    SumIsZero(WithFate(id, Owned), s.workers);
    SumAtMost(Spawned(id), WithFate(id, Settled), s.workers);
    SumAtMost(WithFate(id, Settled), Spawned(id), s.workers);
    SumAtMost(CountedOf(id), WithFate(id, Settled), s.workers);
    SumAtMost(WithFate(id, Settled), CountedOf(id), s.workers);
  }

  // ---- redialing ----

  lemma {:induction false} SpawnedSplits(ws: seq<Worker>, id: ContactId)
    ensures Sum(Spawned(id), ws) == Sum(Saved(id), ws) + Sum(Open(id), ws) + Sum(Unsaved(id), ws)
    ensures Sum(Called(id), ws) <= Sum(Spawned(id), ws)
  {
    if ws != [] { SpawnedSplits(ws[..|ws| - 1], id); }
  }

  /**
    A contact queued once is called at most CallLimit times over a whole run, plus once for every call whose attempt
    could not be written to its row.
   */
  lemma RedialBound(l: Launch, run: seq<Event>, id: ContactId)
    requires IsRun(l, run) && Count(l.ids, id) <= 1
    ensures var s := End(l, run);
      Sum(Called(id), s.workers) <= Sum(Spawned(id), s.workers) <= CallLimit(l, id) + Sum(Unsaved(id), s.workers)
  {
    Flow(l, run, id);
    SpawnedSplits(End(l, run).workers, id);
  }

  /** Only busy and unanswered contacts are dialed again, and only while attempts remain. */
  lemma OnlyRetriesAreRedialed(l: Launch, run: seq<Event>, i: nat, j: nat)
    requires IsRun(l, run) && i < j < |End(l, run).workers|
    requires End(l, run).workers[i].id == End(l, run).workers[j].id
    requires Count(l.ids, End(l, run).workers[i].id) <= 1
    ensures var w := End(l, run).workers[i];
      && w.called && (w.status == Busy || w.status == NoAnswer) && w.attempts < l.campaign.retryMax
  {
    Flow(l, run, End(l, run).workers[i].id);
    assert WorkerOk(l.campaign, End(l, run).workers[i]);
  }

  predicate SourceInv(l: Launch, s: State) {
    && (forall i :: 0 <= i < |s.workers| ==> s.workers[i].id in l.ids)
    && (forall k :: 0 <= k < |s.queue| ==> s.queue[k] in l.ids)
    && (s.loc.Holding? || s.loc.Launching? ==> s.loc.id in l.ids)
  }

  lemma SourceStep(l: Launch, s: State, e: Event)
    requires Enabled(l.campaign, s, e) && SourceInv(l, s)
    ensures SourceInv(l, Apply(l.campaign, s, e))
  {
    match e
    case Dial(i, r) =>
      DialWorkers(l.campaign, s, i, r);
      assert NextWorker(l.campaign, s, s.workers[i], r).id == s.workers[i].id;
      var t := DialStep(l.campaign, s, i, r);
      assert t.loc == s.loc && (t.queue == s.queue || t.queue == s.queue + [s.workers[i].id]);
    case Dispatch(r) => DispatchWorkers(l.campaign, s, r);
    case _ =>
  }

  lemma {:induction false} SourceAlong(l: Launch, s: State, run: seq<Event>)
    requires Feasible(l.campaign, s, run) && SourceInv(l, s)
    ensures SourceInv(l, Final(l.campaign, s, run))
    decreases |run|
  {
    if run != [] {
      SourceStep(l, s, run[0]);
      SourceAlong(l, Apply(l.campaign, s, run[0]), run[1..]);
    }
  }

  /** Summed over the contacts of the campaign. */
  function PerContact(ids: seq<ContactId>, f: ContactId -> int): int {
    if ids == [] then 0 else f(ids[0]) + PerContact(ids[1..], f)
  }

  function SpawnedAmong(ws: seq<Worker>): ContactId -> int { (id: ContactId) => Sum(Spawned(id), ws) }
  function UnsavedAmong(ws: seq<Worker>): ContactId -> int { (id: ContactId) => Sum(Unsaved(id), ws) }

  lemma {:induction false} PerContactAtMost(ids: seq<ContactId>, f: ContactId -> int, g: ContactId -> int, limit: int)
    requires forall k :: 0 <= k < |ids| ==> f(ids[k]) <= limit + g(ids[k])
    ensures PerContact(ids, f) <= |ids| * limit + PerContact(ids, g)
  {
    if ids != [] { PerContactAtMost(ids[1..], f, g, limit); }
  }

  lemma {:induction false} PerContactShift(ids: seq<ContactId>, f: ContactId -> int, g: ContactId -> int,
                                           id: ContactId, d: int)
    requires forall k :: f(k) == g(k) + (if k == id then d else 0)
    ensures PerContact(ids, f) == PerContact(ids, g) + d * Count(ids, id)
  {
    if ids != [] { PerContactShift(ids[1..], f, g, id, d); }
  }

  /** Every goroutine dials one of the campaign's contacts. */
  lemma {:induction false} AllSpawned(ids: seq<ContactId>, ws: seq<Worker>)
    requires forall i :: 0 <= i < |ws| ==> ws[i].id in ids
    ensures |ws| <= PerContact(ids, SpawnedAmong(ws))
  {
    if ws == [] {
      PerContactZero(ids);
    } else {
      var front, w := ws[..|ws| - 1], ws[|ws| - 1];
      AllSpawned(ids, front);
      PerContactShift(ids, SpawnedAmong(ws), SpawnedAmong(front), w.id, 1);
      CountPositive(ids, w.id);
    }
  }

  lemma {:induction false} PerContactZero(ids: seq<ContactId>)
    ensures PerContact(ids, SpawnedAmong([])) == 0 == PerContact(ids, UnsavedAmong([]))
  {
    if ids != [] { PerContactZero(ids[1..]); }
  }

  lemma {:induction false} AllUnsaved(ids: seq<ContactId>, ws: seq<Worker>)
    requires Distinct(ids)
    ensures PerContact(ids, UnsavedAmong(ws)) <= Sum(AnyUnsaved(), ws)
  {
    if ws == [] {
      PerContactZero(ids);
    } else {
      var front, w := ws[..|ws| - 1], ws[|ws| - 1];
      AllUnsaved(ids, front);
      PerContactShift(ids, UnsavedAmong(ws), UnsavedAmong(front), w.id, AnyUnsaved()(w));
    }
  }

  /** All calls of a campaign: at most N * (max(RetryMax, 0) + 1), plus the calls whose attempt was not recorded. */
  lemma TotalCalls(l: Launch, run: seq<Event>)
    requires IsRun(l, run) && Distinct(l.ids) && forall id :: id in l.rows ==> l.rows[id].attempts >= 0
    ensures var s := End(l, run);
      |s.workers| <= |l.ids| * (Max(l.campaign.retryMax, 0) + 1) + Sum(AnyUnsaved(), s.workers)
  {
    var s := End(l, run);
    var limit := Max(l.campaign.retryMax, 0) + 1;
    SourceAlong(l, Initial(l), run);
    AllSpawned(l.ids, s.workers);
    forall k | 0 <= k < |l.ids|
      ensures SpawnedAmong(s.workers)(l.ids[k]) <= limit + UnsavedAmong(s.workers)(l.ids[k])
    {
      RedialBound(l, run, l.ids[k]);
    }
    PerContactAtMost(l.ids, SpawnedAmong(s.workers), UnsavedAmong(s.workers), limit);
    AllUnsaved(l.ids, s.workers);
  }

  lemma NoneUnsaved(l: Launch, run: seq<Event>)
    requires IsRun(l, run) && AllSucceed(run)
    ensures Sum(AnyUnsaved(), End(l, run).workers) == 0
    ensures forall id :: Sum(Unsaved(id), End(l, run).workers) == 0
  {
    var ws := End(l, run).workers;
    SuccessAlong(l, Initial(l), run);
    forall i | 0 <= i < |ws| ensures !IsUnsaved(ws[i]) { assert WorkerSucceeded(l, ws[i]); }
    SumIsZero(AnyUnsaved(), ws);
    forall id ensures Sum(Unsaved(id), ws) == 0 { SumIsZero(Unsaved(id), ws); }
  }

  /**
    When no write fails a contact is called at most max(1, RetryMax + 1 - attempts) times, and N contacts at most
    N * (max(RetryMax, 0) + 1) times in all.
   */
  lemma CallLimits(l: Launch, run: seq<Event>, id: ContactId)
    requires IsRun(l, run) && AllSucceed(run) && Distinct(l.ids)
    requires forall k :: k in l.rows ==> l.rows[k].attempts >= 0
    ensures Sum(Called(id), End(l, run).workers) <= Max(1, l.campaign.retryMax + 1 - StartAttempts(l, id))
    ensures |End(l, run).workers| <= |l.ids| * (Max(l.campaign.retryMax, 0) + 1)
  {
    NoneUnsaved(l, run);
    RedialBound(l, run, id);
    TotalCalls(l, run);
  }
}
