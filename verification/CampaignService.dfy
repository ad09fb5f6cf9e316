/** How the campaign service prepares the pool it starts or rebuilds. */
module CampaignService {
  import opened Wrappers
  import opened CampaignDomain
  import opened DialEngine
  import opened EngineInvariants
  import opened EngineBooks
  import opened EngineRuns
  import opened EngineReports
  import opened EngineRepeats
  import opened EngineWitnesses
  import opened WorkerPools
  import opened Sums

  predicate AllFresh(rows: map<ContactId, ContactRow>, ids: seq<ContactId>) {
    && (forall i :: 0 <= i < |ids| ==> ids[i] !in rows)
    && (forall i, j :: 0 <= i < j < |ids| ==> ids[i] != ids[j])
  }

  lemma {:induction false} DistinctCount(ids: seq<ContactId>, id: ContactId)
    requires forall i, j :: 0 <= i < j < |ids| ==> ids[i] != ids[j]
    ensures Count(ids, id) == if id in ids then 1 else 0
  {
    if ids != [] {
      DistinctCount(ids[1..], id);
      assert id in ids <==> id == ids[0] || id in ids[1..];
    }
  }

  /** The campaign's row, as far as it matters here. */
  datatype StoredCampaign = StoredCampaign(campaign: Campaign, status: CampaignStatus)

  /** What is stored about a campaign when the service is called. */
  datatype Outside = Outside(
    row: Option<StoredCampaign>,
    queued: seq<ContactId>,
    contacts: map<ContactId, ContactRow>,
    cachedProgress: Option<Progress>,
    cachedStatus: CampaignStatus)

  /** How the operations of CreateAndStart end: `pending` is what the query for pending contacts returns. */
  datatype Answers = Answers(
    createOk: bool, updateOk: bool, insertOk: bool, pending: Option<seq<ContactId>>, enqueueOk: bool)

  predicate PendingStored(o: Outside, a: Answers) {
    a.pending.Some? ==> forall i :: 0 <= i < |a.pending.value| ==>
      a.pending.value[i] in o.contacts && o.contacts[a.pending.value[i]].status == Pending
  }

  /** The contacts CreateAndStart queues: the uploaded ones, or without an upload the pending ones it finds. */
  function ToQueue(newIds: seq<ContactId>, a: Answers): seq<ContactId> {
    if newIds != [] then newIds else if a.pending.Some? then a.pending.value else []
  }

  /**
    The launch CreateAndStart prepares: one pending row per uploaded contact unless the insert fails, which is ignored;
    the contacts behind those still queued from before; counters that start from zero whatever the row holds.
   */
  ghost predicate IsPrepared(l: Launch, concurrency: int, retryMax: int, newIds: seq<ContactId>, o: Outside, a: Answers)
  {
    && l.ids == o.queued + ToQueue(newIds, a)
    && l.campaign == Campaign(concurrency, retryMax, |ToQueue(newIds, a)|, ZERO_COUNTERS)
    && l.stored == (if o.row.Some? then o.row.value.campaign.counters else ZERO_COUNTERS)
    && l.records.dbStatus == (if o.row.Some? && !a.updateOk then o.row.value.status else Running)
    && l.cachedProgress == o.cachedProgress && l.records.cachedStatus == o.cachedStatus
    && (forall id :: id in o.contacts ==> id in l.rows && l.rows[id] == o.contacts[id])
    && (a.insertOk ==> forall i :: 0 <= i < |newIds| ==>
          newIds[i] in l.rows && l.rows[newIds[i]] == ContactRow(Pending, 0))
    && (!a.insertOk ==> l.rows == o.contacts)
  }

  /** The appending loop over the uploaded contacts, and the rows it leads to. */
  method CollectContacts(newIds: seq<ContactId>, rows: map<ContactId, ContactRow>)
    returns (contactIds: seq<ContactId>, inserted: map<ContactId, ContactRow>)
    requires AllFresh(rows, newIds)
    ensures contactIds == newIds
    ensures forall id :: id in rows ==> id in inserted && inserted[id] == rows[id]
    ensures forall i :: 0 <= i < |newIds| ==> newIds[i] in inserted && inserted[newIds[i]] == ContactRow(Pending, 0)
  {
    contactIds, inserted := [], rows;
    var i := 0;
    while i < |newIds|
      invariant 0 <= i <= |newIds|
      invariant contactIds == newIds[..i]
      invariant inserted.Keys == rows.Keys + set k | 0 <= k < i :: newIds[k]
      invariant forall k :: 0 <= k < i ==> inserted[newIds[k]] == ContactRow(Pending, 0)
      invariant forall id :: id in rows ==> inserted[id] == rows[id]
    {
      contactIds := contactIds + [newIds[i]];
      inserted := inserted[newIds[i] := ContactRow(Pending, 0)];
      i := i + 1;
    }
  }

  /** CreateAndStart up to the queue: `newIds` are the identifiers drawn, one per uploaded contact. */
  method PrepareLaunch(concurrency: int, retryMax: int, newIds: seq<ContactId>, o: Outside, a: Answers)
    returns (l: Launch)
    requires AllFresh(o.contacts, newIds) && PendingStored(o, a)
    ensures IsPrepared(l, concurrency, retryMax, newIds, o, a)
    ensures newIds != [] ==> l.ids == o.queued + newIds && l.campaign.totalContacts == |newIds|
    ensures newIds == [] && a.pending.Some? ==>
      l.ids == o.queued + a.pending.value && l.campaign.totalContacts == |a.pending.value|
    ensures newIds == [] && a.pending.None? ==> l.ids == o.queued && l.campaign.totalContacts == 0
  {
    var dbStatus := if o.row.Some? && !a.updateOk then o.row.value.status else Running;
    var contactIds, inserted := CollectContacts(newIds, o.contacts);
    var total := |newIds|;
    if |contactIds| == 0 && a.pending.Some? {
      var k := 0;
      while k < |a.pending.value|
        invariant 0 <= k <= |a.pending.value|
        invariant contactIds == a.pending.value[..k]
      {
        contactIds := contactIds + [a.pending.value[k]];
        k := k + 1;
      }
      total := |contactIds|;
    }
    l := Launch(Campaign(concurrency, retryMax, total, ZERO_COUNTERS), o.queued + contactIds,
                if a.insertOk then inserted else o.contacts, o.cachedProgress,
                Records(dbStatus, o.cachedStatus, []),
                if o.row.Some? then o.row.value.campaign.counters else ZERO_COUNTERS);
  }

  /** The launch of a pool that ResumeCampaign builds from what is stored. */
  function Rebuilt(o: Outside): Launch
    requires o.row.Some?
  {
    var row := o.row.value;
    Launch(row.campaign, o.queued, o.contacts, o.cachedProgress, Records(row.status, o.cachedStatus, []),
           row.campaign.counters)
  }

  /** The pool is running and goes on from everything that is stored about its campaign. */
  ghost predicate TakesOver(pool: WorkerPool, o: Outside)
    requires o.row.Some?
    reads pool
  {
    var row := o.row.value;
    && pool.state == Running && !pool.cancelled && pool.workers == []
    && pool.queue == o.queued && pool.rows == o.contacts
    && pool.progress.counters == row.campaign.counters == pool.dbCounters
    && pool.progress.remaining == row.campaign.totalContacts - row.campaign.counters.dialed
    && pool.cachedProgress == o.cachedProgress && pool.dbStatus == row.status && pool.cachedStatus == o.cachedStatus
  }

  /** The service keeps one pool per campaign. */
  class Service {
    var pools: map<string, WorkerPool>

    ghost predicate Valid()
      reads this, pools.Values
    {
      && (forall a, b :: a in pools && b in pools && a != b ==> pools[a] != pools[b])
      && (forall a :: a in pools ==> pools[a].Valid())
    }

    constructor ()
      ensures Valid() && pools == map[]
    {
      pools := map[];
    }

    /** A row that cannot be created, or a queue that cannot be filled, is an error; no pool is started then. */
    method CreateAndStart(id: string, concurrency: int, retryMax: int, newIds: seq<ContactId>, o: Outside, a: Answers)
      returns (l: Launch, pool: WorkerPool?)
      requires Valid() && AllFresh(o.contacts, newIds) && PendingStored(o, a)
      modifies this
      ensures Valid()
      ensures pool == null <==> (o.row.None? && !a.createOk) || !a.enqueueOk
      ensures pool == null ==> pools == old(pools)
      ensures pool != null ==>
        && fresh(pool) && pools == old(pools)[id := pool]
        && pool.campaign == l.campaign && pool.View() == Initial(l)
        && IsPrepared(l, concurrency, retryMax, newIds, o, a)
        && pool.progress.counters == ZERO_COUNTERS && pool.progress.remaining == |ToQueue(newIds, a)|
        && pool.cachedProgress == o.cachedProgress && pool.cachedStatus == o.cachedStatus
        && (newIds != [] && a.insertOk && o.queued == [] ==> IsFresh(l))
    {
      l := PrepareLaunch(concurrency, retryMax, newIds, o, a);
      pool := null;
      if o.row.None? && !a.createOk { return; }
      if !a.enqueueOk { return; }
      pool := new WorkerPool(l);
      pools := pools[id := pool];
      assert o.queued == [] ==> l.ids == ToQueue(newIds, a);
    }

    /**
      A campaign whose pool is in memory is told to resume.  Otherwise a pool is built from the stored row, with the
      queue and the contact rows as they are stored.
     */
    method ResumeCampaign(id: string, o: Outside) returns (ok: bool)
      requires Valid() && (id in pools ==> pools[id].command.Free?)
      modifies this, if id in pools then {pools[id]} else {}
      ensures Valid()
      ensures id in old(pools) ==>
        && pools == old(pools) && pools[id].View() == IssueStep(old(pools[id].View()), Resume)
        && (ok <==> ValidTransition(old(pools[id].state), Running))
      ensures id !in old(pools) && o.row.None? ==> !ok && pools == old(pools)
      ensures id !in old(pools) && o.row.Some? ==>
        && ok && id in pools && fresh(pools[id]) && pools == old(pools)[id := pools[id]]
        && pools[id].campaign == o.row.value.campaign && pools[id].View() == Initial(Rebuilt(o))
        && TakesOver(pools[id], o)
    {
      if id in pools {
        ok := pools[id].Issue(Resume);
        return;
      }
      if o.row.None? { return false; }
      var pool := new WorkerPool(Rebuilt(o));
      pools := pools[id := pool];
      ok := true;
    }

    /** Pause and stop are passed on to the pool in memory; `known` is false when there is none. */
    method PauseOrStop(id: string, command: Command) returns (known: bool, ok: bool)
      requires Valid() && (id in pools ==> pools[id].command.Free?) && !command.Resume?
      modifies if id in pools then {pools[id]} else {}
      ensures Valid() && pools == old(pools) && (known <==> id in pools)
      ensures known ==> pools[id].View() == IssueStep(old(pools[id].View()), command)
      ensures known ==> (ok <==> ValidTransition(old(pools[id].state), Target(command)))
      ensures known && ok ==> pools[id].state == if command.Pause? then Paused else Stopped
    {
      known, ok := id in pools, false;
      if known { ok := pools[id].Issue(command); }
    }
  }

  /** A launch as CreateAndStart prepares it for uploaded contacts. */
  ghost predicate IsFresh(l: Launch) {
    && l.campaign.counters == ZERO_COUNTERS
    && l.campaign.totalContacts == |l.ids|
    && (forall i, j :: 0 <= i < j < |l.ids| ==> l.ids[i] != l.ids[j])
    && (forall i :: 0 <= i < |l.ids| ==> l.ids[i] in l.rows && l.rows[l.ids[i]].attempts == 0)
  }

  /** Completed, without retries, Stop and failures: as many dials as contacts, one outcome each. */
  lemma OneDialPerContact(l: Launch, run: seq<Event>)
    requires IsFresh(l) && IsRun(l, run) && End(l, run).status == Completed
    requires NoStop(run) && AllSucceed(run) && l.campaign.retryMax <= 0
    ensures |End(l, run).workers| == |l.ids|
    ensures forall k :: 0 <= k < |l.ids| ==> Sum(CountedOf(l.ids[k]), End(l, run).workers) == 1
  {
    forall k | 0 <= k < |l.ids| ensures Sum(CountedOf(l.ids[k]), End(l, run).workers) == 1 {
      DistinctCount(l.ids, l.ids[k]);
      EachContactOnce(l, run, l.ids[k]);
    }
    LaunchesAddUp(l, run);
    Completion(l, run);
    Flow(l, run, 0);
    NoStopAlong(l.campaign, Initial(l), run);
  }

  /**
    A fresh campaign without retries, Stop and failures that has completed has an empty queue, one outcome for every
    contact, as many dials as contacts in memory, as many more than at the launch in the database, nothing remaining.
   */
  lemma FreshCompletion(l: Launch, run: seq<Event>)
    requires IsFresh(l) && IsRun(l, run) && End(l, run).status == Completed
    requires NoStop(run) && AllSucceed(run) && l.campaign.retryMax <= 0
    ensures var s := End(l, run);
      && s.queue == []
      && (forall k :: 0 <= k < |l.ids| ==> Sum(CountedOf(l.ids[k]), s.workers) == 1)
      && s.books.progress.counters.dialed == |l.ids| && s.books.dbCounters.dialed == l.stored.dialed + |l.ids|
      && LagKept(l, s.books)
      && s.books.progress.remaining == 0
  {
    var s := End(l, run);
    assert s.queue == [] && Quiescent(s) by { Completion(l, run); }
    OneDialPerContact(l, run);
    forall i | 0 <= i < |s.workers| ensures Counted(CountDialed)(s.workers[i]) == 1 {
      assert WorkerSucceeded(l, s.workers[i]) by { SuccessAlong(l, Initial(l), run); }
      assert s.workers[i].id in l.ids by { SourceAlong(l, Initial(l), run); }
    }
    SumOfOnes(Counted(CountDialed), s.workers);
    assert CounterInv(l, s, CountDialed) && RemainingInv(l.campaign, s.books) by { Accounts(l, run, CountDialed); }
    assert s.books.progress.counters.At(CountDialed) == s.books.progress.counters.dialed;
    assert LagKept(l, s.books) by { LagAtQuiescence(l, run); }
    assert s.books.progress.counters.At(CountDialed) - s.books.dbCounters.At(CountDialed)
        == l.campaign.counters.At(CountDialed) - l.stored.At(CountDialed);
  }

  lemma {:induction false} SumOfOnes(f: Worker -> int, ws: seq<Worker>)
    requires forall i :: 0 <= i < |ws| ==> f(ws[i]) == 1
    ensures Sum(f, ws) == |ws|
  {
    if ws != [] { SumOfOnes(f, ws[..|ws| - 1]); }
  }

  // ---- campaigns started again, and pools rebuilt ----

  /**
    A pool that CreateAndStart prepares agrees with the database in every run without failed writes, once all dials are
    gone, exactly when there was no row before or its counters were zero.
   */
  lemma RestartAgreesExactly(l: Launch, concurrency: int, retryMax: int, newIds: seq<ContactId>, o: Outside, a: Answers)
    requires IsPrepared(l, concurrency, retryMax, newIds, o, a)
    ensures (forall run :: IsRun(l, run) && AllSucceed(run) && Quiescent(End(l, run))
               ==> End(l, run).books.dbCounters == End(l, run).books.progress.counters)
            <==> o.row.None? || o.row.value.campaign.counters == ZERO_COUNTERS
  {
    AgreementAtQuiescence(l);
  }

  /** What a pool of `l` that was cut off in `s` has left: row with counters and status, queue, contacts, cache. */
  function LeftBy(l: Launch, s: State): Outside {
    Outside(Some(StoredCampaign(l.campaign.(counters := s.books.dbCounters), s.records.dbStatus)), s.queue, s.rows,
            s.books.cachedProgress, s.records.cachedStatus)
  }

  /** The launch of the pool that ResumeCampaign builds after a run of this one. */
  function NextLaunch(l: Launch, run: seq<Event>): Launch
    requires IsRun(l, run)
  {
    Rebuilt(LeftBy(l, End(l, run)))
  }

  /** Each run is one of a pool rebuilt from what the run before it has left behind. */
  predicate IsChain(l: Launch, runs: seq<seq<Event>>)
    decreases |runs|
  {
    runs == [] || (IsRun(l, runs[0]) && IsChain(NextLaunch(l, runs[0]), runs[1..]))
  }

  function LastLaunch(l: Launch, runs: seq<seq<Event>>): Launch
    requires IsChain(l, runs)
    decreases |runs|
  {
    if runs == [] then l else LastLaunch(NextLaunch(l, runs[0]), runs[1..])
  }

  /** However often the pool of this campaign is rebuilt, `remaining` is max(0, total - dialed) in every state. */
  ghost predicate StaysClamped(l: Launch) {
    forall runs, run :: IsChain(l, runs) && IsRun(LastLaunch(l, runs), run) ==>
      var p := End(LastLaunch(l, runs), run).books.progress;
      p.remaining == ClampedRemaining(LastLaunch(l, runs).campaign, p)
  }

  /** The dials stored and those still to come are no more than the campaign's contacts. */
  predicate WithinTotal(l: Launch) {
    && l.campaign.retryMax <= 0 && l.campaign.counters.dialed == l.stored.dialed
    && l.stored.dialed + |l.ids| <= l.campaign.totalContacts
  }

  lemma {:induction false} ChainWithinTotal(l: Launch, runs: seq<seq<Event>>)
    requires WithinTotal(l) && IsChain(l, runs)
    ensures WithinTotal(LastLaunch(l, runs))
    decreases |runs|
  {
    if runs != [] {
      LaunchesAddUp(l, runs[0]);
      assert CounterInv(l, End(l, runs[0]), CountDialed) by { Accounts(l, runs[0], CountDialed); }
      assert End(l, runs[0]).books.dbCounters.At(CountDialed) == End(l, runs[0]).books.dbCounters.dialed;
      var ones := (w: Worker) => 1;
      SumAtMost(Credited(CountDialed), ones, End(l, runs[0]).workers);
      SumOfOnes(ones, End(l, runs[0]).workers);
      ChainWithinTotal(NextLaunch(l, runs[0]), runs[1..]);
    }
  }

  /**
    That holds for every fresh campaign of a configuration exactly when retries are switched off: with retries, a
    contact that was dialed twice leaves a row with more dials than contacts.
   */
  lemma ResumedRemainingExactly(concurrency: int, retryMax: int)
    ensures (forall l: Launch ::
               IsFresh(l) && l.stored == ZERO_COUNTERS
               && l.campaign.concurrency == concurrency && l.campaign.retryMax == retryMax
               ==> StaysClamped(l))
            <==> retryMax <= 0
  {
    if retryMax <= 0 {
      forall l: Launch, runs, run |
        IsFresh(l) && l.stored == ZERO_COUNTERS
        && l.campaign.concurrency == concurrency && l.campaign.retryMax == retryMax
        && IsChain(l, runs) && IsRun(LastLaunch(l, runs), run)
        ensures var rebuilt := LastLaunch(l, runs); var p := End(rebuilt, run).books.progress;
          p.remaining == ClampedRemaining(rebuilt.campaign, p)
      {
        ChainWithinTotal(l, runs);
        RemainingIsClamped(LastLaunch(l, runs));
      }
    } else {
      var t := DialedTwice(concurrency, retryMax);
      var l := OneContact(concurrency, retryMax);
      var run :| Feasible(l.campaign, Initial(l), run) && Final(l.campaign, Initial(l), run) == t;
      assert IsRun(l, run) && IsFresh(l);
      RemainingIsClamped(NextLaunch(l, run));
      assert [run][1..] == [] && IsChain(NextLaunch(l, run), []);
      assert IsChain(l, [run]) && LastLaunch(l, [run]) == NextLaunch(l, run);
      assert !StaysClamped(l);
    }
  }

  // ---- what a restart keeps ----

  /** The six places of contact `id`, in the order of WorkConserved. */
  function Places(s: State, id: ContactId): int {
    Count(s.queue, id) + Hand(s.loc, id) + Sum(WithFate(id, Owned), s.workers)
    + Settledness(s, id) + Failures(s, id) + Count(s.dropped, id)
  }

  /**
    A pool that is rebuilt after a restart goes on with exactly what the queue still held: over both runs each contact
    is where the first run had it outside the queue when it was cut off, or in one of the six places of the second.
   */
  lemma RestartConserves(l: Launch, run: seq<Event>, rerun: seq<Event>, id: ContactId)
    requires IsRun(l, run) && IsRun(NextLaunch(l, run), rerun)
    ensures var s, t := End(l, run), End(NextLaunch(l, run), rerun);
      && Places(t, id) == Count(s.queue, id)
      && Count(l.ids, id) == Places(s, id) - Count(s.queue, id) + Places(t, id)
      && t.rows.Keys == l.rows.Keys
  {
    WorkConserved(l, run, id);
    WorkConserved(NextLaunch(l, run), rerun, id);
    KeysKept(l, Initial(l), run);
    KeysKept(NextLaunch(l, run), Initial(NextLaunch(l, run)), rerun);
  }

  lemma {:induction false} KeysKept(l: Launch, s: State, run: seq<Event>)
    requires Feasible(l.campaign, s, run)
    ensures Final(l.campaign, s, run).rows.Keys == s.rows.Keys
    decreases |run|
  {
    if run != [] { KeysKept(l, Apply(l.campaign, s, run[0]), run[1..]); }
  }

  /** The counters still add up in every state of a pool rebuilt from what another run left behind. */
  lemma RebuiltPoolAddsUp(l: Launch, run: seq<Event>, rerun: seq<Event>)
    requires IsRun(l, run) && AllClassified(run) && l.stored.Uncategorised() == 0
    requires IsRun(NextLaunch(l, run), rerun) && AllClassified(rerun)
    ensures var t := End(NextLaunch(l, run), rerun);
      t.books.progress.counters.Uncategorised() == 0 == t.books.dbCounters.Uncategorised()
  {
    ProviderOutcomesAddUp(l, run);
    ProviderOutcomesAddUp(NextLaunch(l, run), rerun);
  }

  // ---- contacts queued twice ----

  ghost predicate NothingRepeated(queued: seq<ContactId>, late: seq<ContactId>) {
    Distinct(queued) && Distinct(late) && forall id :: id in queued ==> id !in late
  }

  /** What a prepared launch queues is free of repetitions exactly when leftovers and new contacts are, and differ. */
  lemma PreparedDistinct(l: Launch, concurrency: int, retryMax: int, newIds: seq<ContactId>, o: Outside, a: Answers)
    requires IsPrepared(l, concurrency, retryMax, newIds, o, a)
    ensures Distinct(l.ids) <==> NothingRepeated(o.queued, ToQueue(newIds, a))
  {
    var late := ToQueue(newIds, a);
    forall id
      ensures Count(l.ids, id) == Count(o.queued, id) + Count(late, id)
      ensures (Count(o.queued, id) > 0 <==> id in o.queued) && (Count(late, id) > 0 <==> id in late)
    {
      CountConcat(o.queued, late, id);
      CountPositive(o.queued, id);
      CountPositive(late, id);
    }
  }

  /**
    A prepared launch keeps the retry limit of every contact, in all runs without Stop and failures, exactly when no
    contact with a row is queued twice; a pending contact that is still queued is, when a campaign is started without
    upload.
   */
  lemma PreparedLimitsExactly(l: Launch, concurrency: int, retryMax: int, newIds: seq<ContactId>, o: Outside,
                              a: Answers)
    requires IsPrepared(l, concurrency, retryMax, newIds, o, a)
    requires forall id :: id in l.rows ==> l.rows[id].attempts >= 0
    ensures (forall run, id :: !OverCalled(l, run, id))
            <==> forall id :: id in l.rows ==> Count(o.queued, id) + Count(ToQueue(newIds, a), id) <= 1
  {
    forall id
      ensures (forall run :: !OverCalled(l, run, id))
              <==> Count(o.queued, id) + Count(ToQueue(newIds, a), id) <= 1 || id !in l.rows
    {
      CountConcat(o.queued, ToQueue(newIds, a), id);
      RedialBoundExactly(l, id);
    }
  }
}
