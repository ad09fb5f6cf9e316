/**
  What every step of the dialing engine keeps: slots and wait group are the goroutines still there, the completed state
  is written with nobody in the wait group, and each goroutine's record agrees with the stage it has reached.
 */
module EngineInvariants {
  import opened CampaignDomain
  import opened DialEngine
  import opened Sums

  function Rank(stage: Stage): nat {
    match stage
    case Fetching => 0 case Screening => 1 case Skipping => 2 case Marking => 3
    case Calling => 4 case Recording => 5 case Counting => 6 case Crediting => 7
    case Caching => 8 case Tallying => 9 case Notifying => 10 case Deciding => 11
    case Releasing => 12 case Leaving => 13 case Gone => 14
  }

  // ---- weights summed over the goroutines ----

  function HoldsSlot(): Worker -> int { (w: Worker) => if Rank(w.stage) <= 12 then 1 else 0 }
  function NotGone(): Worker -> int { (w: Worker) => if w.stage.Gone? then 0 else 1 }
  function InCall(): Worker -> int { (w: Worker) => if w.stage.Calling? then 1 else 0 }
  function InHand(): Worker -> int { (w: Worker) => if w.fate.Owned? then 1 else 0 }

  /** Contact `id` is with this goroutine, or ended there; a requeued contact has left it. */
  function Kept(id: ContactId): Worker -> int { (w: Worker) => if w.id == id && !w.fate.Requeued? then 1 else 0 }
  function WithFate(id: ContactId, fate: Fate): Worker -> int {
    (w: Worker) => if w.id == id && w.fate == fate then 1 else 0
  }
  function Spawned(id: ContactId): Worker -> int { (w: Worker) => if w.id == id then 1 else 0 }
  function Called(id: ContactId): Worker -> int { (w: Worker) => if w.id == id && w.called then 1 else 0 }
  function Saved(id: ContactId): Worker -> int { (w: Worker) => if w.id == id && w.called && w.persisted then 1 else 0 }
  /** Not called, or called with the row write that records it still possible. */
  function Open(id: ContactId): Worker -> int { (w: Worker) => if w.id == id && IsOpen(w) then 1 else 0 }
  predicate IsOpen(w: Worker) { !w.called || (!w.persisted && Rank(w.stage) <= 5) }
  /** A call of which no row write succeeded. */
  function Unsaved(id: ContactId): Worker -> int { (w: Worker) => if w.id == id && IsUnsaved(w) then 1 else 0 }
  predicate IsUnsaved(w: Worker) { w.called && !w.persisted && Rank(w.stage) > 5 }
  function AnyUnsaved(): Worker -> int { (w: Worker) => if IsUnsaved(w) then 1 else 0 }

  /** The in-memory counters include this goroutine. */
  predicate IsCounted(w: Worker) { Rank(w.stage) >= 7 && !w.fate.Missing? }
  /** dialCount includes this goroutine. */
  predicate IsTallied(w: Worker) { Rank(w.stage) >= 10 && !w.fate.Missing? }

  function Counted(k: Counter): Worker -> int { (w: Worker) => if IsCounted(w) then Delta(w.status).At(k) else 0 }
  function Credited(k: Counter): Worker -> int { (w: Worker) => if w.credited then Delta(w.status).At(k) else 0 }
  /** Counted in memory, but not (or not yet) in the database. */
  function Uncredited(k: Counter): Worker -> int {
    (w: Worker) => if IsCounted(w) && !w.credited then Delta(w.status).At(k) else 0
  }
  function Unplaced(): Worker -> int { (w: Worker) => if IsCounted(w) then Delta(w.status).Uncategorised() else 0 }
  function Tallied(): Worker -> int { (w: Worker) => if IsTallied(w) then 1 else 0 }
  function AwaitingNotice(): Worker -> int { (w: Worker) => if w.stage.Notifying? then 1 else 0 }

  /** How a sum over the goroutines changes in one step. */
  function Change(c: Campaign, s: State, e: Event, f: Worker -> int): int
    requires Enabled(c, s, e)
  {
    match e
    case Dial(i, r) => f(NextWorker(c, s, s.workers[i], r)) - f(s.workers[i])
    case Dispatch(_) => if s.loc.Launching? then f(NewWorker(s.loc.id, s.books.progress)) else 0
    case _ => 0
  }

  lemma SumStep(c: Campaign, s: State, e: Event, f: Worker -> int)
    requires Enabled(c, s, e)
    ensures Sum(f, Apply(c, s, e).workers) == Sum(f, s.workers) + Change(c, s, e, f)
  {
    match e
    case Dial(i, r) =>
      SumUpdate(f, s.workers, i, NextWorker(c, s, s.workers[i], r));
    case Dispatch(_) =>
      if s.loc.Launching? { SumAppend(f, s.workers, NewWorker(s.loc.id, s.books.progress)); }
    case _ =>
  }

  // ---- the life of one goroutine ----

  predicate Retryable(c: Campaign, w: Worker) {
    ShouldRetry(w.status, w.attempts + 1, c.retryMax)
  }

  predicate WorkerOk(c: Campaign, w: Worker) {
    var r := Rank(w.stage);
    && (w.fate.Owned? <==> r < 12)
    && (w.called ==> r >= 4)
    && (r == 4 || r == 5 || r == 11 ==> w.called)
    && (w.persisted ==> w.called)
    && (w.credited ==> r >= 8 && !w.fate.Missing?)
    && (w.fate.Requeued? || w.fate.Abandoned? ==> w.called && Retryable(c, w))
    && (w.fate.Missing? ==> !w.called)
  }

  predicate ShapeInv(c: Campaign, s: State) {
    forall i :: 0 <= i < |s.workers| ==> WorkerOk(c, s.workers[i])
  }

  lemma NextWorkerOk(c: Campaign, s: State, w: Worker, r: Reply)
    requires WorkerOk(c, w)
    ensures WorkerOk(c, NextWorker(c, s, w, r))
  {
  }

  lemma DialWorkers(c: Campaign, s: State, i: nat, r: Reply)
    requires CanDial(s, i)
    ensures DialStep(c, s, i, r).workers == s.workers[i := NextWorker(c, s, s.workers[i], r)]
  {
  }

  lemma DispatchWorkers(c: Campaign, s: State, r: Reply)
    requires CanDispatch(c, s)
    ensures DispatchStep(c, s, r).workers
         == if s.loc.Launching? then s.workers + [NewWorker(s.loc.id, s.books.progress)] else s.workers
  {
  }

  lemma ShapeStep(c: Campaign, s: State, e: Event)
    requires Enabled(c, s, e) && ShapeInv(c, s)
    ensures ShapeInv(c, Apply(c, s, e))
  {
    match e
    case Dial(i, r) =>
      DialWorkers(c, s, i, r);
      NextWorkerOk(c, s, s.workers[i], r);
    case Dispatch(r) => DispatchWorkers(c, s, r);
    case _ =>
  }

  // ---- the semaphore and the wait group ----

  predicate SlotInv(c: Campaign, s: State) {
    && s.slots == Sum(HoldsSlot(), s.workers) + (if s.loc.Launching? then 1 else 0)
    && s.slots <= Capacity(c.concurrency)
    && s.pending == Sum(NotGone(), s.workers)
  }

  lemma SlotDelta(c: Campaign, s: State, w: Worker, r: Reply)
    requires !w.stage.Gone?
    ensures HoldsSlot()(NextWorker(c, s, w, r)) == HoldsSlot()(w) - (if w.stage.Releasing? then 1 else 0)
    ensures NotGone()(NextWorker(c, s, w, r)) == NotGone()(w) - (if w.stage.Leaving? then 1 else 0)
  {
  }

  lemma SlotDial(c: Campaign, s: State, i: nat, r: Reply)
    requires CanDial(s, i) && SlotInv(c, s)
    ensures SlotInv(c, DialStep(c, s, i, r))
  {
    SumStep(c, s, Dial(i, r), HoldsSlot());
    SumStep(c, s, Dial(i, r), NotGone());
    SlotDelta(c, s, s.workers[i], r);
  }

  lemma SlotDispatch(c: Campaign, s: State, r: Reply)
    requires CanDispatch(c, s) && SlotInv(c, s)
    ensures SlotInv(c, DispatchStep(c, s, r))
  {
    SumStep(c, s, Dispatch(r), HoldsSlot());
    SumStep(c, s, Dispatch(r), NotGone());
  }

  lemma SlotStep(c: Campaign, s: State, e: Event)
    requires Enabled(c, s, e) && SlotInv(c, s)
    ensures SlotInv(c, Apply(c, s, e))
  {
    match e
    case Dial(i, r) => SlotDial(c, s, i, r);
    case Dispatch(r) => SlotDispatch(c, s, r);
    case _ =>
      var t := Apply(c, s, e);
      assert t.workers == s.workers && t.slots == s.slots && t.pending == s.pending && t.loc == s.loc;
  }

  // ---- where each contact is ----

  /** How many contacts the dispatcher has. */
  function InDispatcher(loc: DispatcherLoc): nat {
    if loc.Holding? || loc.Launching? then 1 else 0
  }

  function Hand(loc: DispatcherLoc, id: ContactId): nat {
    if (loc.Holding? || loc.Launching?) && loc.id == id then 1 else 0
  }

  predicate PlaceInv(l: Launch, s: State, id: ContactId) {
    Count(s.queue, id) + Hand(s.loc, id) + Sum(Kept(id), s.workers) + Count(s.dropped, id) == Count(l.ids, id)
  }

  lemma KeptDelta(c: Campaign, s: State, w: Worker, r: Reply, id: ContactId)
    requires WorkerOk(c, w)
    ensures Kept(id)(NextWorker(c, s, w, r))
         == Kept(id)(w) - (if w.id == id && NextWorker(c, s, w, r).fate.Requeued? && w.fate.Owned? then 1 else 0)
  {
  }

  lemma PlaceDispatch(l: Launch, s: State, r: Reply, id: ContactId)
    requires CanDispatch(l.campaign, s) && PlaceInv(l, s, id)
    ensures PlaceInv(l, DispatchStep(l.campaign, s, r), id)
  {
    SumStep(l.campaign, s, Dispatch(r), Kept(id));
    if s.loc.Holding? { CountConcat(s.dropped, [s.loc.id], id); }
  }

  lemma PlaceCarry(l: Launch, s: State, ok: bool, id: ContactId)
    requires PlaceInv(l, s, id)
    ensures PlaceInv(l, CarryStep(s, ok), id)
  {
    if s.command.ClearingQueue? && ok {
      CountConcat(s.dropped, s.queue, id);
    } else {
      assert CarryStep(s, ok).queue == s.queue && CarryStep(s, ok).dropped == s.dropped;
    }
  }

  lemma PlaceStep(l: Launch, s: State, e: Event, id: ContactId)
    requires Enabled(l.campaign, s, e) && ShapeInv(l.campaign, s) && PlaceInv(l, s, id)
    ensures PlaceInv(l, Apply(l.campaign, s, e), id)
  {
    match e
    case Dispatch(r) => PlaceDispatch(l, s, r, id);
    case Dial(i, r) =>
      SumStep(l.campaign, s, Dial(i, r), Kept(id));
      KeptDelta(l.campaign, s, s.workers[i], r, id);
      CountConcat(s.queue, [s.workers[i].id], id);
    case Issue(_) =>
    case Carry(ok) => PlaceCarry(l, s, ok, id);
  }

  /** Without Stop nothing is dropped and the dispatcher halts only after completing; a Stop is never taken back. */
  predicate CancelInv(s: State) {
    && (!s.cancelled ==> s.dropped == [])
    && (!s.cancelled ==> s.status != Stopped && s.command != ClearingQueue && s.command != SavingStatus(Stopped))
    && (!s.cancelled && s.loc.Halted? ==> s.status == Completed)
    && (s.cancelled ==> s.status == Stopped || s.status == Completed)
  }

  lemma CancelStep(c: Campaign, s: State, e: Event)
    requires Enabled(c, s, e) && CancelInv(s) && ControlInv(s)
    ensures CancelInv(Apply(c, s, e))
  {
  }

  // ---- the campaign status and the dispatcher ----

  predicate Completing(loc: DispatcherLoc) {
    loc.SavingCompletion? || loc.CachingCompletion? || loc.Announcing?
  }

  predicate ControlInv(s: State) {
    && (Completing(s.loc) ==> s.status == Completed)
    && (s.status == Completed ==> Completing(s.loc) || s.loc.Halted?)
    && (s.loc.Finishing? || s.status == Completed ==> s.pending == 0)
    && s.status != Draft
    && match s.command
       case Free => true
       case SavingStatus(t) => t == s.status && t != Completed
       case ClearingQueue => s.status == Stopped
       case CachingStatus(t) => t == s.status && t != Completed
  }

  lemma NoneLeft(ws: seq<Worker>, i: nat)
    requires Sum(NotGone(), ws) == 0 && i < |ws|
    ensures ws[i].stage.Gone?
  {
    SumAtLeastOne(NotGone(), ws, i);
  }

  lemma ControlStep(c: Campaign, s: State, e: Event)
    requires Enabled(c, s, e) && SlotInv(c, s) && ControlInv(s)
    ensures ControlInv(Apply(c, s, e))
  {
    if e.Dial? && s.pending == 0 { NoneLeft(s.workers, e.worker); }
  }

  // ---- a pool in order ----

  /** Goroutines, slots, wait group, status and mutex are consistent with each other. */
  predicate InOrder(c: Campaign, s: State) {
    ShapeInv(c, s) && SlotInv(c, s) && ControlInv(s)
  }

  lemma InOrderStep(c: Campaign, s: State, e: Event)
    requires Enabled(c, s, e) && InOrder(c, s)
    ensures InOrder(c, Apply(c, s, e))
  {
    ShapeStep(c, s, e);
    SlotStep(c, s, e);
    ControlStep(c, s, e);
  }

  // ---- after the queue was seen empty ----

  /** The dispatcher has seen an empty queue and will not look again. */
  predicate Ending(s: State) {
    s.loc.Draining? || s.loc.Finishing? || s.status == Completed
  }

  predicate HasRetry(workers: seq<Worker>, id: ContactId) {
    exists i :: 0 <= i < |workers| && workers[i].id == id && workers[i].fate.Requeued?
  }

  predicate OnlyRetries(s: State) {
    forall k :: 0 <= k < |s.queue| ==> HasRetry(s.workers, s.queue[k])
  }

  /** From then on only retries of goroutines in flight at that moment are queued. */
  predicate EndingInv(c: Campaign, s: State) {
    Ending(s) ==> |s.queue| + Sum(InHand(), s.workers) <= Capacity(c.concurrency) && OnlyRetries(s)
  }

  lemma OwnersHoldSlots(c: Campaign, s: State)
    requires ShapeInv(c, s) && SlotInv(c, s)
    ensures Sum(InHand(), s.workers) + (if s.loc.Launching? then 1 else 0) <= Capacity(c.concurrency)
  {
    forall i | 0 <= i < |s.workers| ensures InHand()(s.workers[i]) <= HoldsSlot()(s.workers[i]) {
      assert WorkerOk(c, s.workers[i]);
    }
    SumAtMost(InHand(), HoldsSlot(), s.workers);
  }

  lemma InHandDelta(c: Campaign, s: State, w: Worker, r: Reply)
    requires WorkerOk(c, w)
    ensures var w' := NextWorker(c, s, w, r);
      && InHand()(w') <= InHand()(w) - (if w'.fate.Requeued? && w.fate.Owned? then 1 else 0)
      && (w.fate.Requeued? ==> w'.fate.Requeued? && w'.id == w.id)
      && w'.id == w.id
  {
  }

  lemma OnlyRetriesDial(c: Campaign, s: State, i: nat, r: Reply)
    requires CanDial(s, i) && ShapeInv(c, s) && OnlyRetries(s)
    ensures OnlyRetries(DialStep(c, s, i, r))
  {
    InHandDelta(c, s, s.workers[i], r);
    var t := DialStep(c, s, i, r);
    forall k | 0 <= k < |t.queue| ensures HasRetry(t.workers, t.queue[k]) {
      if k < |s.queue| {
        var j :| 0 <= j < |s.workers| && s.workers[j].id == s.queue[k] && s.workers[j].fate.Requeued?;
        assert t.workers[j].id == t.queue[k] && t.workers[j].fate.Requeued?;
      } else {
        assert t.workers[i].id == t.queue[k] && t.workers[i].fate.Requeued?;
      }
    }
  }

  /** What a goroutine gives to the queue it no longer has itself. */
  lemma HandedOver(c: Campaign, s: State, i: nat, r: Reply)
    requires CanDial(s, i) && ShapeInv(c, s)
    ensures var t := DialStep(c, s, i, r);
      |t.queue| + Sum(InHand(), t.workers) <= |s.queue| + Sum(InHand(), s.workers)
  {
    SumStep(c, s, Dial(i, r), InHand());
    InHandDelta(c, s, s.workers[i], r);
  }

  lemma EndingStep(c: Campaign, s: State, e: Event)
    requires Enabled(c, s, e) && ShapeInv(c, s) && SlotInv(c, s) && ControlInv(s) && EndingInv(c, s)
    ensures EndingInv(c, Apply(c, s, e))
  {
    match e
    case Dispatch(r) =>
      DispatchWorkers(c, s, r);
      OwnersHoldSlots(c, s);
    case Dial(i, r) =>
      HandedOver(c, s, i, r);
      if Ending(s) { OnlyRetriesDial(c, s, i, r); }
    case _ =>
  }
}
