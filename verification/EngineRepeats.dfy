/** A contact that stands in the queue more than once is dialed more often than its retries allow. */
module EngineRepeats {
  import opened CampaignDomain
  import opened DialEngine
  import opened EngineInvariants
  import opened EngineRedial
  import opened EngineRuns
  import opened EngineWitnesses
  import opened Sums

  /** Between two dials: the dispatcher is at the top of its loop and nobody holds a slot. */
  predicate Resting(s: State) {
    ReadyToPoll(s) && s.slots == 0
  }

  /** What one dial leads to: one more goroutine for the contact at the head of the queue, which has left. */
  predicate Served(s: State, t: State, called: bool) {
    && s.queue != [] && Resting(t)
    && |t.workers| == |s.workers| + 1 && t.workers[..|s.workers|] == s.workers
    && t.workers[|s.workers|].id == s.queue[0] && t.workers[|s.workers|].called == called
  }

  /** The head of the queue has no row: its dial ends at once. */
  lemma ServeUnknown(c: Campaign, s0: State, s: State) returns (t: State)
    requires Calmly(c, s0, s) && Resting(s) && s.queue != [] && s.queue[0] !in s.rows
    ensures Calmly(c, s0, t) && Served(s, t, false) && t.queue == s.queue[1..] && t.rows == s.rows
  {
    LaunchOne(c, s0, s);
    var s1, i := Launched(s), |s.workers|;
    var w := s1.workers[i].(stage := Releasing, fate := Missing);
    Then(c, s0, s1, Dial(i, NO));
    var s2 := s1.(workers := s1.workers[i := w]);
    assert Apply(c, s1, Dial(i, NO)) == s2;
    ReleaseOne(c, s0, s2, i);
    t := Released(s2, i);
  }

  /** The head of the queue is called, and its outcome counted and stored. */
  lemma CallHead(c: Campaign, s0: State, s: State, outcome: ContactStatus) returns (t: State)
    requires Calmly(c, s0, s) && Resting(s) && s.queue != [] && s.queue[0] in s.rows
    ensures Calmly(c, s0, t) && ReadyToPoll(t) && t.slots == 1 && t.queue == s.queue[1..]
    ensures t.rows == s.rows[s.queue[0] := ContactRow(outcome, s.rows[s.queue[0]].attempts + 1)]
    ensures |t.workers| == |s.workers| + 1 && t.workers[..|s.workers|] == s.workers
    ensures var w := t.workers[|s.workers|];
      && w.id == s.queue[0] && w.called && w.stage.Tallying? && w.fate.Owned? && w.status == outcome
      && w.attempts == s.rows[w.id].attempts
  {
    LaunchOne(c, s0, s);
    var s1, i := Launched(s), |s.workers|;
    CallOne(c, s0, s1, i, outcome);
    var s2 := Rung(s1, i, outcome);
    CountOne(c, s0, s2, i);
    var s3 := CountedNow(s2, i);
    StoreOne(c, s0, s3, i);
    t := Stored(s3, i);
  }

  /** The head of the queue is dialed with the given outcome, and queued again if that is to be retried. */
  lemma ServeOne(c: Campaign, s0: State, s: State, outcome: ContactStatus) returns (t: State)
    requires Calmly(c, s0, s) && Resting(s) && s.queue != [] && s.queue[0] in s.rows
    ensures Calmly(c, s0, t) && Served(s, t, true)
    ensures var id := s.queue[0]; var attempts := s.rows[id].attempts + 1;
      && t.rows == s.rows[id := ContactRow(outcome, attempts)]
      && t.queue == s.queue[1..] + (if ShouldRetry(outcome, attempts, c.retryMax) then [id] else [])
  {
    var s1 := CallHead(c, s0, s, outcome);
    var i := |s.workers|;
    var books := DecideOne(c, s0, s1, i);
    var s2 := Turned(s1, i, s1.workers[i].(stage := Deciding), s1.rows, books);
    LeaveOne(c, s0, s2, i);
    t := Left(c, s2, i);
  }

  /** The calls contact `id` still gets when it is busy every time and the contacts are dialed one after the other. */
  function CallsToCome(c: Campaign, s: State, id: ContactId): nat
    requires id in s.rows
  {
    if Count(s.queue, id) == 0 then 0 else RetriesLeft(c, s, id) + Count(s.queue, id)
  }

  function RetriesLeft(c: Campaign, s: State, id: ContactId): nat
    requires id in s.rows
  {
    Max(0, c.retryMax - s.rows[id].attempts)
  }

  /** Contact `id` is read with attempts that can be there. */
  predicate IsStored(s: State, id: ContactId) {
    id in s.rows && s.rows[id].attempts >= 0
  }

  lemma ServeHead(c: Campaign, s0: State, s: State, id: ContactId) returns (t: State)
    requires Calmly(c, s0, s) && Resting(s) && s.queue != [] && IsStored(s, id)
    ensures Calmly(c, s0, t) && Resting(t) && IsStored(t, id)
    ensures Sum(Called(id), t.workers) + CallsToCome(c, t, id) == Sum(Called(id), s.workers) + CallsToCome(c, s, id)
    ensures RetriesLeft(c, t, id) + |t.queue| < RetriesLeft(c, s, id) + |s.queue|
  {
    var head := s.queue[0];
    if head !in s.rows {
      t := ServeUnknown(c, s0, s);
    } else {
      t := ServeOne(c, s0, s, if head == id then Busy else Answered);
      CountConcat(s.queue[1..], [head], id);
      assert s.queue[1..] + [] == s.queue[1..];
    }
  }

  lemma {:induction false} ServeAll(c: Campaign, s0: State, s: State, id: ContactId) returns (t: State)
    requires Calmly(c, s0, s) && Resting(s) && IsStored(s, id)
    ensures Calmly(c, s0, t) && Sum(Called(id), t.workers) == Sum(Called(id), s.workers) + CallsToCome(c, s, id)
    decreases RetriesLeft(c, s, id) + |s.queue|
  {
    if s.queue == [] {
      t := s;
    } else {
      var s1 := ServeHead(c, s0, s, id);
      t := ServeAll(c, s0, s1, id);
    }
  }

  // ---- a contact without a row ----

  predicate NeverCalled(s: State, id: ContactId) {
    && id !in s.rows
    && forall i :: 0 <= i < |s.workers| && s.workers[i].id == id
         ==> !s.workers[i].called && s.workers[i].stage in {Fetching, Releasing, Leaving, Gone}
  }

  lemma {:induction false} NeverCalledAlong(c: Campaign, s: State, run: seq<Event>, id: ContactId)
    requires Feasible(c, s, run) && NeverCalled(s, id)
    ensures NeverCalled(Final(c, s, run), id)
    decreases |run|
  {
    if run != [] {
      NeverCalledAlong(c, Apply(c, s, run[0]), run[1..], id);
    }
  }

  /** In a run of `l` without Stop and failures contact `id` is called more often than its retries allow. */
  ghost predicate OverCalled(l: Launch, run: seq<Event>, id: ContactId) {
    && IsRun(l, run) && AllSucceed(run) && NoStop(run)
    && Sum(Called(id), End(l, run).workers) > CallLimit(l, id)
  }

  /**
    For every launch: without Stop and failures the retry limit of a contact holds in every run exactly when the contact
    was queued at most once, or has no row.
   */
  lemma RedialBoundExactly(l: Launch, id: ContactId)
    requires id in l.ids && id in l.rows ==> l.rows[id].attempts >= 0
    ensures (forall run :: !OverCalled(l, run, id)) <==> Count(l.ids, id) <= 1 || id !in l.rows
  {
    if Count(l.ids, id) <= 1 || id !in l.rows {
      forall run | IsRun(l, run) && AllSucceed(run) ensures !OverCalled(l, run, id) {
        if id !in l.rows {
          NeverCalledAlong(l.campaign, Initial(l), run, id);
          SumIsZero(Called(id), End(l, run).workers);
        } else {
          NoneUnsaved(l, run);
          RedialBound(l, run, id);
        }
      }
    } else {
      CountPositive(l.ids, id);
      Started(l);
      var t := ServeAll(l.campaign, Initial(l), AfterStart(l), id);
      var run :| Feasible(l.campaign, Initial(l), run) && Final(l.campaign, Initial(l), run) == t && AllSucceed(run)
                 && NoStop(run);
      assert OverCalled(l, run, id);
    }
  }
}
