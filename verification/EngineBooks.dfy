/**
  The progress counters in memory, in the database, in the cache and in the callbacks: what each step does to them, as
  sums over the goroutines that have counted, credited, tallied or announced their dial.
 */
module EngineBooks {
  import opened Wrappers
  import opened CampaignDomain
  import opened DialEngine
  import opened EngineInvariants
  import opened Sums

  // ---- sums ----

  predicate CounterInv(l: Launch, s: State, k: Counter) {
    && s.books.progress.counters.At(k) == l.campaign.counters.At(k) + Sum(Counted(k), s.workers)
    && s.books.dbCounters.At(k) == l.stored.At(k) + Sum(Credited(k), s.workers)
  }

  /** A goroutine enters the counters when it counts, and the database when it credits; its outcome is fixed by then. */
  lemma Entered(c: Campaign, s: State, w: Worker, r: Reply)
    requires WorkerOk(c, w) && !w.stage.Gone?
    ensures var w' := NextWorker(c, s, w, r);
      && IsCounted(w') == (IsCounted(w) || w.stage.Counting?) && !(IsCounted(w) && w.stage.Counting?)
      && w'.credited == (w.credited || (w.stage.Crediting? && r.ok)) && !(w.credited && w.stage.Crediting?)
      && (IsCounted(w') || w'.credited ==> w'.status == w.status)
  {
  }

  lemma CounterDelta(c: Campaign, s: State, w: Worker, r: Reply, k: Counter)
    requires WorkerOk(c, w) && !w.stage.Gone?
    ensures var w' := NextWorker(c, s, w, r); var b := NextBooks(s.books, w, r.ok);
      && Counted(k)(w') - Counted(k)(w) == b.progress.counters.At(k) - s.books.progress.counters.At(k)
      && Credited(k)(w') - Credited(k)(w) == b.dbCounters.At(k) - s.books.dbCounters.At(k)
  {
    Entered(c, s, w, r);
  }

  lemma CounterStep(l: Launch, s: State, e: Event, k: Counter)
    requires Enabled(l.campaign, s, e) && ShapeInv(l.campaign, s) && CounterInv(l, s, k)
    ensures CounterInv(l, Apply(l.campaign, s, e), k)
  {
    SumStep(l.campaign, s, e, Counted(k));
    SumStep(l.campaign, s, e, Credited(k));
    if e.Dial? { CounterDelta(l.campaign, s, s.workers[e.worker], e.reply, k); }
  }

  // ---- callbacks ----

  predicate NoticeInv(s: State) {
    && s.books.dialCount == Sum(Tallied(), s.workers)
    && s.books.dialCount >= 0
    && Noticed(|s.books.progressCalls| + Sum(AwaitingNotice(), s.workers), s.books.dialCount,
               Sum(LeftNothing(), s.workers))
  }

  /** dialCount includes this goroutine, and its update left nothing to dial. */
  function LeftNothing(): Worker -> int { (w: Worker) => if IsTallied(w) && w.snapshot.remaining == 0 then 1 else 0 }

  /** Callbacks made or about to be made after `updates` updates, `last` of which left nothing to dial. */
  predicate Noticed(calls: int, updates: int, last: int) {
    updates / 5 <= calls <= updates / 5 + last && last <= calls
  }

  lemma NoticeDelta(c: Campaign, s: State, w: Worker, r: Reply)
    requires WorkerOk(c, w) && !w.stage.Gone?
    ensures var w' := NextWorker(c, s, w, r); var b := NextBooks(s.books, w, r.ok);
      && Tallied()(w') - Tallied()(w) == b.dialCount - s.books.dialCount == (if w.stage.Tallying? then 1 else 0)
      && LeftNothing()(w') - LeftNothing()(w) == (if w.stage.Tallying? && w.snapshot.remaining == 0 then 1 else 0)
      && |b.progressCalls| + AwaitingNotice()(w') - AwaitingNotice()(w)
         == |s.books.progressCalls|
            + (if w.stage.Tallying? && (b.dialCount % 5 == 0 || w.snapshot.remaining == 0) then 1 else 0)
  {
  }

  lemma NoticeStep(c: Campaign, s: State, e: Event)
    requires Enabled(c, s, e) && ShapeInv(c, s) && NoticeInv(s)
    ensures NoticeInv(Apply(c, s, e))
  {
    SumStep(c, s, e, Tallied());
    SumStep(c, s, e, AwaitingNotice());
    SumStep(c, s, e, LeftNothing());
    if e.Dial? { NoticeDelta(c, s, s.workers[e.worker], e.reply); }
  }

  // ---- the sum of the outcomes, and what remains ----

  predicate OutcomeInv(l: Launch, s: State) {
    s.books.progress.counters.Uncategorised() == l.campaign.counters.Uncategorised() + Sum(Unplaced(), s.workers)
  }

  lemma OutcomeStep(l: Launch, s: State, e: Event)
    requires Enabled(l.campaign, s, e) && ShapeInv(l.campaign, s) && OutcomeInv(l, s)
    ensures OutcomeInv(l, Apply(l.campaign, s, e))
  {
    SumStep(l.campaign, s, e, Unplaced());
    if e.Dial? { Entered(l.campaign, s, s.workers[e.worker], e.reply); }
  }

  function ClampedRemaining(c: Campaign, p: Progress): int {
    if c.totalContacts > p.counters.dialed then c.totalContacts - p.counters.dialed else 0
  }

  /** A pool that starts with more dials than contacts keeps its negative remainder for ever. */
  predicate RemainingInv(c: Campaign, b: Books) {
    && b.progress.counters.dialed >= c.counters.dialed
    && b.progress.remaining == (if c.totalContacts < c.counters.dialed then c.totalContacts - c.counters.dialed
                                else ClampedRemaining(c, b.progress))
  }

  // ---- published snapshots ----

  predicate AtMost(p: Counters, q: Counters) {
    && p.dialed <= q.dialed && p.answered <= q.answered && p.failed <= q.failed
    && p.busy <= q.busy && p.noAnswer <= q.noAnswer
  }

  predicate Publishing(w: Worker) {
    7 <= Rank(w.stage) <= 10
  }

  predicate WasReached(b: Books, p: Progress) {
    p in b.reached
  }

  /** The history ends in the present value and never runs ahead of it; everything sent or cached is in it. */
  predicate HistoryOk(l: Launch, b: Books) {
    && WasReached(b, b.progress)
    && (forall j :: 0 <= j < |b.reached| ==> AtMost(b.reached[j].counters, b.progress.counters))
    && (forall j :: 0 <= j < |b.progressCalls| ==> WasReached(b, b.progressCalls[j]))
    && (b.cachedProgress == l.cachedProgress || (b.cachedProgress.Some? && WasReached(b, b.cachedProgress.value)))
  }

  predicate SnapshotInv(l: Launch, s: State) {
    && HistoryOk(l, s.books)
    && (forall i :: 0 <= i < |s.workers| && Publishing(s.workers[i]) ==> WasReached(s.books, s.workers[i].snapshot))
  }

  lemma OwnSnapshot(c: Campaign, s: State, w: Worker, r: Reply)
    requires !w.stage.Gone? && (Publishing(w) ==> WasReached(s.books, w.snapshot))
    requires WasReached(NextBooks(s.books, w, r.ok), NextBooks(s.books, w, r.ok).progress)
    ensures var w' := NextWorker(c, s, w, r); Publishing(w') ==> WasReached(NextBooks(s.books, w, r.ok), w'.snapshot)
  {
  }

  lemma SnapshotDial(l: Launch, s: State, i: nat, r: Reply)
    requires CanDial(s, i) && SnapshotInv(l, s)
    ensures SnapshotInv(l, DialStep(l.campaign, s, i, r))
  {
    var w := s.workers[i];
    DialWorkers(l.campaign, s, i, r);
    OwnSnapshot(l.campaign, s, w, r);
    assert DialStep(l.campaign, s, i, r).books == NextBooks(s.books, w, r.ok);
  }

  lemma SnapshotStep(l: Launch, s: State, e: Event)
    requires Enabled(l.campaign, s, e) && SnapshotInv(l, s)
    ensures SnapshotInv(l, Apply(l.campaign, s, e))
  {
    match e
    case Dial(i, r) => SnapshotDial(l, s, i, r);
    case Dispatch(r) => DispatchWorkers(l.campaign, s, r);
    case _ =>
  }

  // ---- runs in which every operation succeeds ----

  predicate WorkerSucceeded(l: Launch, w: Worker) {
    && (Rank(w.stage) >= 8 && !w.fate.Missing? ==> w.credited)
    && (w.called ==> w.persisted)
    && !w.fate.Abandoned?
    && (w.fate.Missing? ==> w.id !in l.rows)
  }

  predicate SuccessInv(l: Launch, s: State) {
    && s.rows.Keys == l.rows.Keys
    && forall i :: 0 <= i < |s.workers| ==> WorkerSucceeded(l, s.workers[i])
  }

  // ---- one slot: the cache follows memory ----

  predicate Uncached(w: Worker) {
    w.stage.Crediting? || w.stage.Caching?
  }

  predicate CacheInv(s: State) {
    && (forall i :: 0 <= i < |s.workers| && Uncached(s.workers[i]) ==> s.workers[i].snapshot == s.books.progress)
    && ((forall i :: 0 <= i < |s.workers| ==> !Uncached(s.workers[i])) ==>
          |s.books.reached| == 1 || s.books.cachedProgress == Some(s.books.progress))
    && |s.books.reached| >= 1
  }

  lemma CacheDial(c: Campaign, s: State, i: nat, r: Reply)
    requires CanDial(s, i) && SlotInv(c, s) && CacheInv(s) && r.ok && Capacity(c.concurrency) == 1
    ensures CacheInv(DialStep(c, s, i, r))
  {
    var w, t := s.workers[i], DialStep(c, s, i, r);
    DialWorkers(c, s, i, r);
    if Rank(w.stage) <= 12 {
      forall j | 0 <= j < |s.workers| && j != i ensures !Uncached(s.workers[j]) {
        if i < j { SumAtLeastTwo(HoldsSlot(), s.workers, i, j); } else { SumAtLeastTwo(HoldsSlot(), s.workers, j, i); }
      }
    }
    match w.stage
    case Counting => assert Uncached(t.workers[i]);
    case Crediting => assert Uncached(t.workers[i]);
    case Caching => assert t.books.cachedProgress == Some(s.books.progress);
    case _ => NotPublishing(c, s, i, r);
  }

  lemma NotPublishing(c: Campaign, s: State, i: nat, r: Reply)
    requires CanDial(s, i) && s.workers[i].stage !in {Counting, Crediting, Caching}
    ensures var t := DialStep(c, s, i, r);
      && t.books.progress == s.books.progress && t.books.cachedProgress == s.books.cachedProgress
      && t.books.reached == s.books.reached
      && !Uncached(t.workers[i]) && !Uncached(s.workers[i])
      && forall j :: 0 <= j < |s.workers| && j != i ==> t.workers[j] == s.workers[j]
  {
  }

  lemma CacheStep(c: Campaign, s: State, e: Event)
    requires Enabled(c, s, e) && SlotInv(c, s) && CacheInv(s) && Succeeds(e) && Capacity(c.concurrency) == 1
    ensures CacheInv(Apply(c, s, e))
  {
    match e
    case Dial(i, r) => CacheDial(c, s, i, r);
    case Dispatch(r) =>
      DispatchWorkers(c, s, r);
      assert forall i :: 0 <= i < |s.workers| ==> Apply(c, s, e).workers[i] == s.workers[i];
    case _ =>
  }
}
