/**
  How often one contact is dialed: at most one goroutine or queue place is in charge of a contact that was queued once,
  and its row counts the dials before that whose attempt could be stored.
 */
module EngineRedial {
  import opened CampaignDomain
  import opened DialEngine
  import opened EngineInvariants
  import opened Sums

  function Max(a: int, b: int): int {
    if a < b then b else a
  }

  function StartAttempts(l: Launch, id: ContactId): int {
    if id in l.rows then l.rows[id].attempts else 0
  }

  /** The most calls a contact can get: one, or its retries. */
  function CallLimit(l: Launch, id: ContactId): int {
    Max(1, l.campaign.retryMax + 1 - StartAttempts(l, id))
  }

  /** Goroutine `w` has read contact `id`'s row and still has the contact. */
  predicate Reads(w: Worker, id: ContactId) {
    w.id == id && 1 <= Rank(w.stage) <= 11
  }

  /** The attempts a goroutine read, plus its own recorded one, are what the row says. */
  predicate ReadsInv(ws: seq<Worker>, id: ContactId, attempts: int) {
    forall i :: 0 <= i < |ws| && Reads(ws[i], id) ==> ws[i].attempts + (if ws[i].persisted then 1 else 0) == attempts
  }

  /** How often contact `id` waits to be dialed. */
  function Waiting(s: State, id: ContactId): nat {
    Count(s.queue, id) + Hand(s.loc, id)
  }

  predicate RedialOk(l: Launch, ws: seq<Worker>, rows: map<ContactId, ContactRow>, waiting: nat, id: ContactId) {
    var attempts := StartAttempts(l, id) + Sum(Saved(id), ws);
    && rows.Keys == l.rows.Keys
    && (id in l.rows ==> rows[id].attempts == attempts)
    && (id !in l.rows ==> forall i :: 0 <= i < |ws| ==> !Reads(ws[i], id))
    && ReadsInv(ws, id, attempts)
    && (waiting > 0 ==> Sum(Open(id), ws) == 0 && (Sum(Called(id), ws) > 0 ==> attempts <= l.campaign.retryMax))
    && Sum(Saved(id), ws) + Sum(Open(id), ws) <= CallLimit(l, id)
  }

  predicate RedialInv(l: Launch, s: State, id: ContactId) {
    RedialOk(l, s.workers, s.rows, Waiting(s, id), id)
  }

  lemma SavedAreCalled(ws: seq<Worker>, id: ContactId)
    ensures 0 <= Sum(Saved(id), ws) <= Sum(Called(id), ws)
    ensures 0 <= Sum(Open(id), ws)
  {
    SumAtMost(Saved(id), Called(id), ws);
    SumNonNegative(Saved(id), ws);
    SumNonNegative(Open(id), ws);
  }

  /** Two goroutines cannot both have a contact that was queued once. */
  lemma OneOwner(l: Launch, s: State, id: ContactId, i: nat, j: nat)
    requires PlaceInv(l, s, id) && Count(l.ids, id) <= 1
    requires i < |s.workers| && j < |s.workers| && s.workers[i].id == s.workers[j].id == id
    requires !s.workers[i].fate.Requeued? && !s.workers[j].fate.Requeued?
    ensures i == j && Count(s.queue, id) + Hand(s.loc, id) == 0
  {
    if i < j {
      SumAtLeastTwo(Kept(id), s.workers, i, j);
    } else if j < i {
      SumAtLeastTwo(Kept(id), s.workers, j, i);
    } else {
      SumAtLeastOne(Kept(id), s.workers, i);
    }
  }

  /** While one goroutine decides about a retry, no other dial of the contact is open. */
  lemma DecidingIsAlone(l: Launch, s: State, id: ContactId, i: nat)
    requires ShapeInv(l.campaign, s) && PlaceInv(l, s, id) && Count(l.ids, id) <= 1
    requires i < |s.workers| && s.workers[i].id == id && s.workers[i].stage.Deciding?
    ensures Sum(Open(id), s.workers) <= 0
  {
    var rest := (w: Worker) => Kept(id)(w) - Open(id)(w);
    forall k | 0 <= k < |s.workers| ensures rest(s.workers[k]) >= 0 {
      assert WorkerOk(l.campaign, s.workers[k]);
    }
    assert WorkerOk(l.campaign, s.workers[i]);
    SumAtLeastOne(rest, s.workers, i);
    SumPlus(Open(id), rest, Kept(id), s.workers);
  }

  /** What one step of a goroutine does to its contact's call counts. */
  lemma CallDelta(c: Campaign, s: State, w: Worker, r: Reply, id: ContactId)
    requires WorkerOk(c, w) && !w.stage.Gone?
    ensures var w' := NextWorker(c, s, w, r);
      var saves := if (w.stage.Marking? || (w.stage.Recording? && !w.persisted)) && r.ok then 1 else 0;
      && w'.id == w.id
      && Saved(id)(w') == Saved(id)(w) + (if w.id == id then saves else 0)
      && Saved(id)(w') + Open(id)(w') <= Saved(id)(w) + Open(id)(w)
      && Open(id)(w') <= Open(id)(w)
      && Called(id)(w') == Called(id)(w) + (if w.id == id && w.stage.Marking? then 1 else 0)
  {
  }

  lemma AttemptsDelta(c: Campaign, s: State, w: Worker, r: Reply, attempts: int)
    requires WorkerOk(c, w) && !w.stage.Gone?
    requires Reads(w, w.id) ==> w.attempts + (if w.persisted then 1 else 0) == attempts
    requires w.id in s.rows ==> s.rows[w.id].attempts == attempts
    requires w.id !in s.rows ==> !Reads(w, w.id)
    ensures var w' := NextWorker(c, s, w, r);
      var rows' := NextRows(s.rows, w, r.ok);
      var saves := if (w.stage.Marking? || (w.stage.Recording? && !w.persisted)) && r.ok then 1 else 0;
      && (Reads(w', w.id) ==> w'.attempts + (if w'.persisted then 1 else 0) == attempts + saves)
      && rows'.Keys == s.rows.Keys
      && (w.id in s.rows ==> rows'[w.id].attempts == attempts + saves)
      && (forall k :: k in s.rows && k != w.id ==> rows'[k] == s.rows[k])
      && (w.id !in s.rows ==> !Reads(w', w.id))
  {
  }

  lemma RedialOther(l: Launch, s: State, i: nat, r: Reply, id: ContactId)
    requires CanDial(s, i) && s.workers[i].id != id
    requires ShapeInv(l.campaign, s) && RedialInv(l, s, id)
    ensures RedialInv(l, DialStep(l.campaign, s, i, r), id)
  {
    var c, w := l.campaign, s.workers[i];
    var e := Dial(i, r);
    SumStep(c, s, e, Saved(id));
    SumStep(c, s, e, Open(id));
    SumStep(c, s, e, Called(id));
    CallDelta(c, s, w, r, id);
    CountConcat(s.queue, [w.id], id);
    var t := DialStep(c, s, i, r);
    assert t.rows.Keys == s.rows.Keys;
    assert id in s.rows ==> t.rows[id] == s.rows[id];
  }

  /** Nobody but its owner has read contact `id`'s row, and the contact does not wait. */
  lemma OwnerIsAlone(l: Launch, s: State, i: nat)
    requires i < |s.workers| && ShapeInv(l.campaign, s) && s.workers[i].fate.Owned?
    requires PlaceInv(l, s, s.workers[i].id) && Count(l.ids, s.workers[i].id) <= 1
    ensures Waiting(s, s.workers[i].id) == 0
    ensures forall j :: 0 <= j < |s.workers| && j != i ==> !Reads(s.workers[j], s.workers[i].id)
  {
    OneOwner(l, s, s.workers[i].id, i, i);
    forall j | 0 <= j < |s.workers| && j != i ensures !Reads(s.workers[j], s.workers[i].id) {
      assert WorkerOk(l.campaign, s.workers[j]);
      if Reads(s.workers[j], s.workers[i].id) { OneOwner(l, s, s.workers[i].id, i, j); }
    }
  }

  /** The sums of a contact's calls after a step of its owner. */
  lemma OwnerSums(l: Launch, s: State, i: nat, r: Reply)
    requires CanDial(s, i) && ShapeInv(l.campaign, s)
    ensures var w := s.workers[i]; var ws := DialStep(l.campaign, s, i, r).workers;
      var saves := if (w.stage.Marking? || (w.stage.Recording? && !w.persisted)) && r.ok then 1 else 0;
      && Sum(Saved(w.id), ws) == Sum(Saved(w.id), s.workers) + saves
      && Sum(Saved(w.id), ws) + Sum(Open(w.id), ws) <= Sum(Saved(w.id), s.workers) + Sum(Open(w.id), s.workers)
      && Sum(Open(w.id), ws) <= Sum(Open(w.id), s.workers)
  {
    var id := s.workers[i].id;
    SumStep(l.campaign, s, Dial(i, r), Saved(id));
    SumStep(l.campaign, s, Dial(i, r), Open(id));
    CallDelta(l.campaign, s, s.workers[i], r, id);
  }

  /** What the owner does to the row, and to what has been read of it. */
  lemma OwnerRow(l: Launch, s: State, i: nat, r: Reply)
    requires CanDial(s, i) && ShapeInv(l.campaign, s) && s.workers[i].fate.Owned?
    requires PlaceInv(l, s, s.workers[i].id) && Count(l.ids, s.workers[i].id) <= 1
    requires RedialInv(l, s, s.workers[i].id)
    ensures var t := DialStep(l.campaign, s, i, r); var id := s.workers[i].id;
      var attempts := StartAttempts(l, id) + Sum(Saved(id), t.workers);
      && t.rows.Keys == l.rows.Keys
      && (id in l.rows ==> t.rows[id].attempts == attempts)
      && (id !in l.rows ==> forall j :: 0 <= j < |t.workers| ==> !Reads(t.workers[j], id))
      && ReadsInv(t.workers, id, attempts)
  {
    var w, id := s.workers[i], s.workers[i].id;
    var t := DialStep(l.campaign, s, i, r);
    AttemptsDelta(l.campaign, s, w, r, StartAttempts(l, id) + Sum(Saved(id), s.workers));
    OwnerSums(l, s, i, r);
    OwnerIsAlone(l, s, i);
    DialWorkers(l.campaign, s, i, r);
    assert t.rows == NextRows(s.rows, w, r.ok);
  }

  /** A contact waits again only after a decision to retry, when its attempts allow it. */
  lemma OwnerQueue(l: Launch, s: State, i: nat, r: Reply)
    requires CanDial(s, i) && ShapeInv(l.campaign, s) && s.workers[i].fate.Owned?
    requires PlaceInv(l, s, s.workers[i].id) && Count(l.ids, s.workers[i].id) <= 1
    requires RedialInv(l, s, s.workers[i].id)
    ensures var t := DialStep(l.campaign, s, i, r); var id := s.workers[i].id;
      Waiting(t, id) > 0 ==>
        && Sum(Open(id), t.workers) == 0
        && StartAttempts(l, id) + Sum(Saved(id), t.workers) <= l.campaign.retryMax
  {
    var w, id := s.workers[i], s.workers[i].id;
    var t := DialStep(l.campaign, s, i, r);
    OwnerIsAlone(l, s, i);
    if w.stage.Deciding? {
      OwnerSums(l, s, i, r);
      SavedAreCalled(t.workers, id);
      DecidingIsAlone(l, s, id, i);
    } else {
      assert WorkerOk(l.campaign, w);
      InHandDelta(l.campaign, s, w, r);
      assert t.queue == s.queue && t.loc == s.loc;
    }
  }

  lemma RedialUnwind(l: Launch, ws: seq<Worker>, rows: map<ContactId, ContactRow>, waiting: nat, i: nat, stage: Stage)
    requires i < |ws| && Rank(ws[i].stage) >= 12 && Rank(stage) >= 12
    requires RedialOk(l, ws, rows, waiting, ws[i].id)
    ensures RedialOk(l, ws[i := ws[i].(stage := stage)], rows, waiting, ws[i].id)
  {
    var w, id := ws[i].(stage := stage), ws[i].id;
    SumUpdate(Saved(id), ws, i, w);
    SumUpdate(Open(id), ws, i, w);
    SumUpdate(Called(id), ws, i, w);
  }

  /** A goroutine on its way out changes nothing about its contact. */
  lemma RedialLeaver(l: Launch, s: State, i: nat, r: Reply)
    requires CanDial(s, i) && ShapeInv(l.campaign, s) && !s.workers[i].fate.Owned?
    requires RedialInv(l, s, s.workers[i].id)
    ensures RedialInv(l, DialStep(l.campaign, s, i, r), s.workers[i].id)
  {
    var w := s.workers[i];
    assert WorkerOk(l.campaign, w);
    var stage := if w.stage.Releasing? then Leaving else Gone;
    assert NextWorker(l.campaign, s, w, r) == w.(stage := stage);
    RedialUnwind(l, s.workers, s.rows, Waiting(s, w.id), i, stage);
  }

  /** A launched goroutine takes over a waiting contact. */
  lemma RedialLaunch(l: Launch, ws: seq<Worker>, rows: map<ContactId, ContactRow>, id: ContactId, p: Progress)
    requires RedialOk(l, ws, rows, 1, id)
    ensures RedialOk(l, ws + [NewWorker(id, p)], rows, 0, id)
  {
    var w := NewWorker(id, p);
    SumAppend(Saved(id), ws, w);
    SumAppend(Open(id), ws, w);
    SumAppend(Called(id), ws, w);
    SavedAreCalled(ws, id);
  }

  /** Without a launch the dispatcher only moves a contact from the queue into its hand, or drops it. */
  lemma RedialNoLaunch(l: Launch, s: State, r: Reply, id: ContactId)
    requires CanDispatch(l.campaign, s) && RedialInv(l, s, id) && !s.loc.Launching?
    ensures RedialInv(l, DispatchStep(l.campaign, s, r), id)
  {
    var t := DispatchStep(l.campaign, s, r);
    assert t.rows == s.rows && t.workers == s.workers;
  }

  lemma RedialDispatch(l: Launch, s: State, r: Reply, id: ContactId)
    requires CanDispatch(l.campaign, s) && RedialInv(l, s, id)
    requires PlaceInv(l, s, id) && Count(l.ids, id) <= 1
    ensures RedialInv(l, DispatchStep(l.campaign, s, r), id)
  {
    if !s.loc.Launching? {
      RedialNoLaunch(l, s, r, id);
    } else {
      var t := DispatchStep(l.campaign, s, r);
      DispatchWorkers(l.campaign, s, r);
      assert t.rows == s.rows && t.queue == s.queue;
      if s.loc.id == id {
        SumNonNegative(Kept(id), s.workers);
        RedialLaunch(l, s.workers, s.rows, id, s.books.progress);
        assert Waiting(t, id) == 0;
      } else {
        var w := NewWorker(s.loc.id, s.books.progress);
        SumAppend(Saved(id), s.workers, w);
        SumAppend(Open(id), s.workers, w);
        SumAppend(Called(id), s.workers, w);
        assert Waiting(t, id) == Waiting(s, id);
      }
    }
  }

  lemma RedialCommand(l: Launch, s: State, e: Event, id: ContactId)
    requires Enabled(l.campaign, s, e) && (e.Issue? || e.Carry?) && RedialInv(l, s, id)
    ensures RedialInv(l, Apply(l.campaign, s, e), id)
  {
    var t := Apply(l.campaign, s, e);
    assert t.workers == s.workers && t.rows == s.rows && t.loc == s.loc;
    assert Waiting(t, id) <= Waiting(s, id);
  }

  lemma RedialStep(l: Launch, s: State, e: Event, id: ContactId)
    requires Enabled(l.campaign, s, e) && ShapeInv(l.campaign, s)
    requires PlaceInv(l, s, id) && Count(l.ids, id) <= 1 && RedialInv(l, s, id)
    ensures RedialInv(l, Apply(l.campaign, s, e), id)
  {
    match e
    case Dispatch(r) => RedialDispatch(l, s, r, id);
    case Dial(i, r) =>
      if s.workers[i].id != id {
        RedialOther(l, s, i, r, id);
      } else if s.workers[i].fate.Owned? {
        OwnerRow(l, s, i, r);
        OwnerQueue(l, s, i, r);
        OwnerSums(l, s, i, r);
      } else {
        RedialLeaver(l, s, i, r);
      }
    case _ => RedialCommand(l, s, e, id);
  }

  // ---- who is dialed again ----

  /** Every earlier dial of a contact ended in a queued retry. */
  predicate OrderInv(s: State, id: ContactId) {
    forall i, j :: 0 <= i < j < |s.workers| && s.workers[i].id == s.workers[j].id == id ==> s.workers[i].fate.Requeued?
  }

  lemma OrderStep(l: Launch, s: State, e: Event, id: ContactId)
    requires Enabled(l.campaign, s, e) && ShapeInv(l.campaign, s)
    requires PlaceInv(l, s, id) && Count(l.ids, id) <= 1 && OrderInv(s, id)
    ensures OrderInv(Apply(l.campaign, s, e), id)
  {
    var t := Apply(l.campaign, s, e);
    match e
    case Dial(i, r) => InHandDelta(l.campaign, s, s.workers[i], r);
    case Dispatch(r) =>
      DispatchWorkers(l.campaign, s, r);
      if s.loc.Launching? && s.loc.id == id {
        forall i | 0 <= i < |s.workers| && s.workers[i].id == id ensures s.workers[i].fate.Requeued? {
          SumAtLeastOne(Kept(id), s.workers, i);
        }
      }
    case _ =>
  }
}
