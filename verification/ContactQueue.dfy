/** The two contact queues: the in-memory one and the one kept in Redis. */
module ContactQueues {
  import opened Wrappers
  import opened Decimal

  datatype Snapshot = Snapshot(
    dialed: GoInt, answered: GoInt, failed: GoInt, busy: GoInt, noAnswer: GoInt, remaining: GoInt)

  datatype QueueOp =
    | Enqueue(campaign: string, ids: seq<string>)
    | Dequeue(campaign: string)
    | QueueLength(campaign: string)
    | ClearQueue(campaign: string)
    | SetState(campaign: string, text: string)
    | GetState(campaign: string)
    | SetProgress(campaign: string, snapshot: Snapshot)
    | GetProgress(campaign: string)

  datatype Answer =
    | Done
    | QueueEmpty
    | Item(id: string)
    | Length(n: nat)
    | Text(text: string)
    | Saved(snapshot: Option<Snapshot>)
    | WrongType                    // Redis refuses an operation on a value of another kind

  // ---- in memory ----

  datatype MemoryState = MemoryState(
    queues: map<string, seq<string>>, states: map<string, string>, progress: map<string, Snapshot>)

  function Queued(m: MemoryState, c: string): seq<string> {
    if c in m.queues then m.queues[c] else []
  }

  function StateText(m: MemoryState, c: string): string {
    if c in m.states then m.states[c] else ""
  }

  function SavedProgress(m: MemoryState, c: string): Option<Snapshot> {
    if c in m.progress then Some(m.progress[c]) else None
  }

  function MemoryNext(m: MemoryState, op: QueueOp): MemoryState {
    match op
    case Enqueue(c, ids) => m.(queues := m.queues[c := Queued(m, c) + ids])
    case Dequeue(c) => if Queued(m, c) == [] then m else m.(queues := m.queues[c := Queued(m, c)[1..]])
    case ClearQueue(c) => m.(queues := m.queues - {c})
    case SetState(c, text) => m.(states := m.states[c := text])
    case SetProgress(c, p) => m.(progress := m.progress[c := p])
    case _ => m
  }

  function MemoryAnswer(m: MemoryState, op: QueueOp): Answer {
    match op
    case Dequeue(c) => if Queued(m, c) == [] then QueueEmpty else Item(Queued(m, c)[0])
    case QueueLength(c) => Length(|Queued(m, c)|)
    case GetState(c) => Text(StateText(m, c))
    case GetProgress(c) => Saved(SavedProgress(m, c))
    case _ => Done
  }

  class MemoryQueue {
    var queues: map<string, seq<string>>
    var states: map<string, string>
    var progress: map<string, Snapshot>

    function View(): MemoryState
      reads this
    {
      MemoryState(queues, states, progress)
    }

    constructor ()
      ensures View() == MemoryState(map[], map[], map[])
    {
      queues, states, progress := map[], map[], map[];
    }

    method Enqueue(c: string, ids: seq<string>)
      modifies this
      ensures View() == MemoryNext(old(View()), QueueOp.Enqueue(c, ids))
      ensures Queued(View(), c) == Queued(old(View()), c) + ids && states == old(states) && progress == old(progress)
    {
      var items := if c in queues then queues[c] else [];
      queues := queues[c := items + ids];
    }

    method Dequeue(c: string) returns (first: Option<string>)
      modifies this
      ensures View() == MemoryNext(old(View()), QueueOp.Dequeue(c))
      ensures MemoryAnswer(old(View()), QueueOp.Dequeue(c)) == if first.None? then QueueEmpty else Item(first.value)
      ensures if first.None? then Queued(View(), c) == [] == Queued(old(View()), c)
              else [first.value] + Queued(View(), c) == Queued(old(View()), c)
    {
      var items := if c in queues then queues[c] else [];
      if |items| == 0 { return None; }
      first := Some(items[0]);
      queues := queues[c := items[1..]];
    }

    method QueueLength(c: string) returns (n: nat)
      ensures n == if c in queues then |queues[c]| else 0
      ensures Length(n) == MemoryAnswer(View(), QueueOp.QueueLength(c))
    {
      n := if c in queues then |queues[c]| else 0;
    }

    method ClearQueue(c: string)
      modifies this
      ensures View() == MemoryNext(old(View()), QueueOp.ClearQueue(c))
      ensures Queued(View(), c) == [] && states == old(states) && progress == old(progress)
    {
      queues := queues - {c};
    }

    method SetState(c: string, text: string)
      modifies this
      ensures View() == MemoryNext(old(View()), QueueOp.SetState(c, text))
      ensures states == old(states)[c := text] && queues == old(queues) && progress == old(progress)
    {
      states := states[c := text];
    }

    method SetProgress(c: string, p: Snapshot)
      modifies this
      ensures View() == MemoryNext(old(View()), QueueOp.SetProgress(c, p))
      ensures progress == old(progress)[c := p] && queues == old(queues) && states == old(states)
    {
      progress := progress[c := p];
    }

    method GetState(c: string) returns (text: string)
      ensures Text(text) == MemoryAnswer(View(), QueueOp.GetState(c))
      ensures text == if c in states then states[c] else ""
    {
      text := if c in states then states[c] else "";
    }

    method GetProgress(c: string) returns (p: Option<Snapshot>)
      ensures Saved(p) == MemoryAnswer(View(), QueueOp.GetProgress(c))
      ensures p == if c in progress then Some(progress[c]) else None
    {
      p := if c in progress then Some(progress[c]) else None;
    }
  }

  // ---- in Redis ----

  /** Redis keeps values of several kinds under one set of keys; expiry is not modelled. */
  datatype RedisValue = RList(items: seq<string>) | RString(text: string) | RHash(fields: map<string, string>)

  type Store = map<string, RedisValue>

  const PREFIX := "dialer:campaign:"

  function QueueKey(c: string): string { PREFIX + c + ":queue" }
  function StateKey(c: string): string { PREFIX + c + ":state" }
  function ProgressKey(c: string): string { PREFIX + c + ":progress" }

  function Pushed(items: seq<string>, ids: seq<string>): seq<string>
    decreases |ids|
  {
    if ids == [] then items else Pushed([ids[0]] + items, ids[1..])
  }

  function Items(store: Store, key: string): seq<string> {
    if key in store && store[key].RList? then store[key].items else []
  }

  function Fields(store: Store, key: string): map<string, string> {
    if key in store && store[key].RHash? then store[key].fields else map[]
  }

  function PutList(store: Store, key: string, items: seq<string>): Store {
    if items == [] then store - {key} else store[key := RList(items)]
  }

  function ProgressFields(p: Snapshot): map<string, string> {
    map["dialed" := Itoa(p.dialed), "answered" := Itoa(p.answered), "failed" := Itoa(p.failed),
        "busy" := Itoa(p.busy), "no_answer" := Itoa(p.noAnswer), "remaining" := Itoa(p.remaining)]
  }

  /** Each number stands in decimal under its own name. */
  predicate HoldsProgress(fields: map<string, string>, p: Snapshot) {
    && "dialed" in fields && fields["dialed"] == Itoa(p.dialed)
    && "answered" in fields && fields["answered"] == Itoa(p.answered)
    && "failed" in fields && fields["failed"] == Itoa(p.failed)
    && "busy" in fields && fields["busy"] == Itoa(p.busy)
    && "no_answer" in fields && fields["no_answer"] == Itoa(p.noAnswer)
    && "remaining" in fields && fields["remaining"] == Itoa(p.remaining)
  }

  function Field(fields: map<string, string>, name: string): GoInt {
    Atoi(if name in fields then fields[name] else "")
  }

  function ReadProgress(fields: map<string, string>): Option<Snapshot> {
    if fields == map[] then None
    else Some(Snapshot(Field(fields, "dialed"), Field(fields, "answered"), Field(fields, "failed"),
                       Field(fields, "busy"), Field(fields, "no_answer"), Field(fields, "remaining")))
  }

  function RedisNext(store: Store, op: QueueOp): Store {
    match op
    case Enqueue(c, ids) =>
      var key := QueueKey(c);
      if ids == [] || (key in store && !store[key].RList?) then store
      else PutList(store, key, Pushed(Items(store, key), ids))
    case Dequeue(c) =>
      var items := Items(store, QueueKey(c));
      if items == [] then store else PutList(store, QueueKey(c), items[..|items| - 1])
    case ClearQueue(c) => store - {QueueKey(c)}
    case SetState(c, text) => store[StateKey(c) := RString(text)]
    case SetProgress(c, p) =>
      var key := ProgressKey(c);
      if key in store && !store[key].RHash? then store
      else store[key := RHash(Fields(store, key) + ProgressFields(p))]
    case _ => store
  }

  function RedisAnswer(store: Store, op: QueueOp): Answer {
    match op
    case Enqueue(c, ids) =>
      if ids != [] && QueueKey(c) in store && !store[QueueKey(c)].RList? then WrongType else Done
    case Dequeue(c) =>
      var items := Items(store, QueueKey(c));
      if QueueKey(c) in store && !store[QueueKey(c)].RList? then WrongType
      else if items == [] then QueueEmpty
      else Item(items[|items| - 1])
    case QueueLength(c) =>
      if QueueKey(c) in store && !store[QueueKey(c)].RList? then WrongType else Length(|Items(store, QueueKey(c))|)
    case GetState(c) =>
      if StateKey(c) !in store then Text("")
      else if store[StateKey(c)].RString? then Text(store[StateKey(c)].text)
      else WrongType
    case SetProgress(c, p) =>
      if ProgressKey(c) in store && !store[ProgressKey(c)].RHash? then WrongType else Done
    case GetProgress(c) =>
      if ProgressKey(c) in store && !store[ProgressKey(c)].RHash? then WrongType
      else Saved(ReadProgress(Fields(store, ProgressKey(c))))
    case _ => Done
  }

  class RedisQueue {
    var store: Store

    constructor ()
      ensures store == map[]
    {
      store := map[];
    }

    /** LPUSH with several values pushes them one after the other. */
    method Enqueue(c: string, ids: seq<string>) returns (answer: Answer)
      modifies this
      ensures store == RedisNext(old(store), QueueOp.Enqueue(c, ids))
      ensures answer == RedisAnswer(old(store), QueueOp.Enqueue(c, ids))
    {
      if |ids| == 0 { return Done; }
      var key := PREFIX + c + ":queue";
      if key in store && !store[key].RList? { return WrongType; }
      var items := if key in store then store[key].items else [];
      var i := 0;
      while i < |ids|
        invariant 0 <= i <= |ids|
        invariant Pushed(items, ids[i..]) == Pushed(Items(store, key), ids)
        invariant |items| >= i
      {
        assert ids[i..][0] == ids[i] && ids[i..][1..] == ids[i + 1..];
        items := [ids[i]] + items;
        i := i + 1;
      }
      store := store[key := RList(items)];
      answer := Done;
    }

    /** BRPOP takes the last element; a list that becomes empty disappears. */
    method Dequeue(c: string) returns (answer: Answer)
      modifies this
      ensures store == RedisNext(old(store), QueueOp.Dequeue(c))
      ensures answer == RedisAnswer(old(store), QueueOp.Dequeue(c))
      ensures var key := "dialer:campaign:" + c + ":queue";
        && (answer.Item? <==> key in old(store) && old(store)[key].RList? && old(store)[key].items != [])
        && (answer.Item? ==> Items(store, key) + [answer.id] == old(store)[key].items)
        && (!answer.Item? ==> store == old(store))
    {
      var key := PREFIX + c + ":queue";
      if key !in store { return QueueEmpty; }
      if !store[key].RList? { return WrongType; }
      var items := store[key].items;
      if |items| == 0 { return QueueEmpty; }
      answer := Item(items[|items| - 1]);
      if |items| == 1 { store := store - {key}; } else { store := store[key := RList(items[..|items| - 1])]; }
    }

    method ClearQueue(c: string)
      modifies this
      ensures store == RedisNext(old(store), QueueOp.ClearQueue(c))
      ensures store == old(store) - {"dialer:campaign:" + c + ":queue"}
    {
      store := store - {PREFIX + c + ":queue"};
    }

    method QueueLength(c: string) returns (answer: Answer)
      ensures answer == RedisAnswer(store, QueueOp.QueueLength(c))
    {
      var key := PREFIX + c + ":queue";
      if key !in store { return Length(0); }
      answer := if store[key].RList? then Length(|store[key].items|) else WrongType;
    }

    /** SET replaces whatever the key held. */
    method SetState(c: string, text: string)
      modifies this
      ensures store == RedisNext(old(store), QueueOp.SetState(c, text))
      ensures store == old(store)["dialer:campaign:" + c + ":state" := RString(text)]
    {
      store := store[PREFIX + c + ":state" := RString(text)];
    }

    method GetState(c: string) returns (answer: Answer)
      ensures answer == RedisAnswer(store, QueueOp.GetState(c))
    {
      var key := PREFIX + c + ":state";
      if key !in store { return Text(""); }
      answer := if store[key].RString? then Text(store[key].text) else WrongType;
    }

    method SetProgress(c: string, p: Snapshot) returns (answer: Answer)
      modifies this
      ensures store == RedisNext(old(store), QueueOp.SetProgress(c, p))
      ensures answer == RedisAnswer(old(store), QueueOp.SetProgress(c, p))
      ensures var key := "dialer:campaign:" + c + ":progress";
        answer.Done? ==> key in store && store[key].RHash? && HoldsProgress(store[key].fields, p)
    {
      var key := PREFIX + c + ":progress";
      if key in store && !store[key].RHash? { return WrongType; }
      var fields := if key in store then store[key].fields else map[];
      store := store[key := RHash(fields + ProgressFields(p))];
      answer := Done;
    }

    /** HGETALL of a missing key is an empty hash, for which no progress is returned. */
    method GetProgress(c: string) returns (answer: Answer)
      ensures answer == RedisAnswer(store, QueueOp.GetProgress(c))
    {
      var key := PREFIX + c + ":progress";
      if key in store && !store[key].RHash? { return WrongType; }
      var vals := if key in store then store[key].fields else map[];
      if vals == map[] { return Saved(None); }
      var dialed, answered, failed := Field(vals, "dialed"), Field(vals, "answered"), Field(vals, "failed");
      var busy, noAnswer, remaining := Field(vals, "busy"), Field(vals, "no_answer"), Field(vals, "remaining");
      answer := Saved(Some(Snapshot(dialed, answered, failed, busy, noAnswer, remaining)));
    }
  }

  // ---- the keys of different campaigns and kinds differ ----

  lemma KeysDiffer(a: string, b: string)
    ensures QueueKey(a) == QueueKey(b) ==> a == b
    ensures StateKey(a) == StateKey(b) ==> a == b
    ensures ProgressKey(a) == ProgressKey(b) ==> a == b
    ensures QueueKey(a) != StateKey(b) && QueueKey(a) != ProgressKey(b) && StateKey(a) != ProgressKey(b)
  {
    assert forall s: string, t: string, u: string {:trigger s + t + u} :: (s + t + u)[|s|..|s| + |t|] == t;
    if QueueKey(a) == QueueKey(b) {
      assert QueueKey(a)[|PREFIX|..|PREFIX| + |a|] == a && QueueKey(b)[|PREFIX|..|PREFIX| + |b|] == b;
    }
    if StateKey(a) == StateKey(b) {
      assert StateKey(a)[|PREFIX|..|PREFIX| + |a|] == a && StateKey(b)[|PREFIX|..|PREFIX| + |b|] == b;
    }
    if ProgressKey(a) == ProgressKey(b) {
      assert ProgressKey(a)[|PREFIX|..|PREFIX| + |a|] == a && ProgressKey(b)[|PREFIX|..|PREFIX| + |b|] == b;
    }
    assert QueueKey(a)[|QueueKey(a)| - 2] == 'u' && StateKey(b)[|StateKey(b)| - 2] == 't';
    assert StateKey(a)[|StateKey(a)| - 2] == 't';
    assert ProgressKey(b)[|ProgressKey(b)| - 2] == 's';
  }

  lemma ReadBack(fields: map<string, string>, p: Snapshot)
    ensures ReadProgress(fields + ProgressFields(p)) == Some(p)
  {
    var all := fields + ProgressFields(p);
    assert all["dialed"] == Itoa(p.dialed) && all["answered"] == Itoa(p.answered) && all["failed"] == Itoa(p.failed);
    assert all["busy"] == Itoa(p.busy) && all["no_answer"] == Itoa(p.noAnswer) && all["remaining"] == Itoa(p.remaining);
    IntegerRoundTrip(p.dialed);
    IntegerRoundTrip(p.answered);
    IntegerRoundTrip(p.failed);
    IntegerRoundTrip(p.busy);
    IntegerRoundTrip(p.noAnswer);
    IntegerRoundTrip(p.remaining);
  }

  // ---- refinement ----

  function Reversed(s: seq<string>): (r: seq<string>)
    ensures |r| == |s|
  {
    if s == [] then [] else Reversed(s[1..]) + [s[0]]
  }

  lemma {:induction false} PushedReversed(items: seq<string>, ids: seq<string>)
    ensures Reversed(Pushed(items, ids)) == Reversed(items) + ids
    decreases |ids|
  {
    if ids == [] {
      assert Reversed(items) + [] == Reversed(items);
    } else {
      PushedReversed([ids[0]] + items, ids[1..]);
      assert ([ids[0]] + items)[1..] == items;
      assert Reversed(items) + [ids[0]] + ids[1..] == Reversed(items) + ids;
    }
  }

  lemma {:induction false} ReversedLast(items: seq<string>)
    requires items != []
    ensures Reversed(items) == [items[|items| - 1]] + Reversed(items[..|items| - 1])
  {
    var front := items[..|items| - 1];
    if |items| == 1 {
      assert items[1..] == [] && front == [];
    } else {
      ReversedLast(items[1..]);
      assert items[1..][..|items| - 2] == front[1..] && front[0] == items[0];
    }
  }

  /** Campaign `c` looks the same in both. */
  predicate SameCampaign(m: MemoryState, store: Store, c: string) {
    && (QueueKey(c) in store ==> store[QueueKey(c)].RList?)
    && Reversed(Items(store, QueueKey(c))) == Queued(m, c)
    && (StateKey(c) in store ==> store[StateKey(c)].RString?)
    && StateText(m, c) == (if StateKey(c) in store then store[StateKey(c)].text else "")
    && (ProgressKey(c) in store ==> store[ProgressKey(c)].RHash?)
    && SavedProgress(m, c) == ReadProgress(Fields(store, ProgressKey(c)))
  }

  ghost predicate Agree(m: MemoryState, store: Store) {
    forall c :: SameCampaign(m, store, c)
  }

  predicate SameFor(m: MemoryState, n: MemoryState, c: string) {
    Queued(m, c) == Queued(n, c) && StateText(m, c) == StateText(n, c) && SavedProgress(m, c) == SavedProgress(n, c)
  }

  lemma DequeueAgrees(m: MemoryState, store: Store, c: string)
    requires SameCampaign(m, store, c)
    ensures SameCampaign(MemoryNext(m, Dequeue(c)), RedisNext(store, Dequeue(c)), c)
  {
    KeysDiffer(c, c);
    var items := Items(store, QueueKey(c));
    if items != [] { ReversedLast(items); }
  }

  lemma OwnCampaignAgrees(m: MemoryState, store: Store, op: QueueOp)
    requires SameCampaign(m, store, op.campaign)
    ensures SameCampaign(MemoryNext(m, op), RedisNext(store, op), op.campaign)
  {
    var c := op.campaign;
    match op
    case Enqueue(_, ids) =>
      KeysDiffer(c, c);
      PushedReversed(Items(store, QueueKey(c)), ids);
    case Dequeue(_) => DequeueAgrees(m, store, c);
    case SetProgress(_, p) =>
      KeysDiffer(c, c);
      ReadBack(Fields(store, ProgressKey(c)), p);
    case _ => KeysDiffer(c, c);
  }

  /** An operation on one campaign changes nothing that another campaign sees in memory. */
  lemma OtherCampaignInMemory(m: MemoryState, op: QueueOp, c: string)
    requires c != op.campaign
    ensures SameFor(MemoryNext(m, op), m, c)
  {
  }

  lemma OtherCampaignUnchanged(m: MemoryState, store: Store, op: QueueOp, c: string)
    requires c != op.campaign && SameCampaign(m, store, c)
    ensures SameCampaign(MemoryNext(m, op), RedisNext(store, op), c)
  {
    OtherCampaignInMemory(m, op, c);
    KeysDiffer(c, op.campaign);
    KeysDiffer(op.campaign, c);
  }

  lemma AgreeStep(m: MemoryState, store: Store, op: QueueOp)
    requires Agree(m, store)
    ensures RedisAnswer(store, op) == MemoryAnswer(m, op)
    ensures Agree(MemoryNext(m, op), RedisNext(store, op))
  {
    assert SameCampaign(m, store, op.campaign);
    var items := Items(store, QueueKey(op.campaign));
    if items != [] { ReversedLast(items); }
    forall c ensures SameCampaign(MemoryNext(m, op), RedisNext(store, op), c) {
      assert SameCampaign(m, store, c);
      if c == op.campaign { OwnCampaignAgrees(m, store, op); } else { OtherCampaignUnchanged(m, store, op, c); }
    }
  }

  function MemoryAnswers(m: MemoryState, ops: seq<QueueOp>): (r: seq<Answer>)
    ensures |r| == |ops|
    decreases |ops|
  {
    if ops == [] then [] else [MemoryAnswer(m, ops[0])] + MemoryAnswers(MemoryNext(m, ops[0]), ops[1..])
  }

  function RedisAnswers(store: Store, ops: seq<QueueOp>): (r: seq<Answer>)
    ensures |r| == |ops|
    decreases |ops|
  {
    if ops == [] then [] else [RedisAnswer(store, ops[0])] + RedisAnswers(RedisNext(store, ops[0]), ops[1..])
  }

  /** Whatever sequence of operations is applied, over any campaigns, both queues give the same answers. */
  lemma {:induction false} QueuesAgree(m: MemoryState, store: Store, ops: seq<QueueOp>)
    requires Agree(m, store)
    ensures MemoryAnswers(m, ops) == RedisAnswers(store, ops)
    decreases |ops|
  {
    if ops != [] {
      AgreeStep(m, store, ops[0]);
      QueuesAgree(MemoryNext(m, ops[0]), RedisNext(store, ops[0]), ops[1..]);
    }
  }

  lemma NewQueuesAgree(ops: seq<QueueOp>)
    ensures MemoryAnswers(MemoryState(map[], map[], map[]), ops) == RedisAnswers(map[], ops)
  {
    QueuesAgree(MemoryState(map[], map[], map[]), map[], ops);
  }

  // ---- campaigns do not affect each other ----

  function Of(ops: seq<QueueOp>, c: string): seq<QueueOp> {
    if ops == [] then []
    else if ops[0].campaign == c then [ops[0]] + Of(ops[1..], c)
    else Of(ops[1..], c)
  }

  function AnswersTo(m: MemoryState, ops: seq<QueueOp>, c: string): seq<Answer>
    decreases |ops|
  {
    if ops == [] then []
    else (if ops[0].campaign == c then [MemoryAnswer(m, ops[0])] else [])
         + AnswersTo(MemoryNext(m, ops[0]), ops[1..], c)
  }

  /** The answers a campaign gets are those it would get if no other campaign existed. */
  lemma {:induction false} CampaignsIndependent(m: MemoryState, n: MemoryState, ops: seq<QueueOp>, c: string)
    requires SameFor(m, n, c)
    ensures AnswersTo(m, ops, c) == MemoryAnswers(n, Of(ops, c))
    decreases |ops|
  {
    if ops != [] {
      var op := ops[0];
      if op.campaign == c {
        SameStep(m, n, op);
        CampaignsIndependent(MemoryNext(m, op), MemoryNext(n, op), ops[1..], c);
        assert Of(ops, c) == [op] + Of(ops[1..], c);
      } else {
        OtherCampaignInMemory(m, op, c);
        CampaignsIndependent(MemoryNext(m, op), n, ops[1..], c);
      }
    }
  }

  lemma SameStep(m: MemoryState, n: MemoryState, op: QueueOp)
    requires SameFor(m, n, op.campaign)
    ensures SameFor(MemoryNext(m, op), MemoryNext(n, op), op.campaign)
    ensures MemoryAnswer(m, op) == MemoryAnswer(n, op)
  {
  }

  // ---- first in, first out ----

  function MemoryEnd(m: MemoryState, ops: seq<QueueOp>): MemoryState
    decreases |ops|
  {
    if ops == [] then m else MemoryEnd(MemoryNext(m, ops[0]), ops[1..])
  }

  function EnqueuedIn(ops: seq<QueueOp>, c: string): seq<string> {
    if ops == [] then []
    else (if ops[0].Enqueue? && ops[0].campaign == c then ops[0].ids else []) + EnqueuedIn(ops[1..], c)
  }

  /** The identifiers that the dequeues of a campaign were answered with. */
  function TakenBy(ops: seq<QueueOp>, answers: seq<Answer>, c: string): seq<string>
    requires |answers| == |ops|
  {
    if ops == [] then []
    else (if ops[0] == Dequeue(c) && answers[0].Item? then [answers[0].id] else []) + TakenBy(ops[1..], answers[1..], c)
  }

  lemma Regroup(out: seq<string>, taken: seq<string>, left: seq<string>, queued: seq<string>, into: seq<string>,
                put: seq<string>, next: seq<string>)
    requires out + next == queued + into && taken + left == next + put
    ensures (out + taken) + left == queued + (into + put)
  {
    calc {
      (out + taken) + left;
      out + (taken + left);
      out + (next + put);
      (out + next) + put;
      (queued + into) + put;
      queued + (into + put);
    }
  }

  /** Until a campaign's queue is cleared, the answers given and what is left are what was enqueued, in that order. */
  lemma {:induction false} FirstInFirstOut(m: MemoryState, ops: seq<QueueOp>, c: string)
    requires forall k :: 0 <= k < |ops| ==> ops[k] != ClearQueue(c)
    ensures TakenBy(ops, MemoryAnswers(m, ops), c) + Queued(MemoryEnd(m, ops), c) == Queued(m, c) + EnqueuedIn(ops, c)
    decreases |ops|
  {
    if ops == [] {
      assert Queued(m, c) + [] == [] + Queued(m, c);
    } else {
      var op, n := ops[0], MemoryNext(m, ops[0]);
      assert op != ClearQueue(c);
      forall k | 0 <= k < |ops[1..]| ensures ops[1..][k] != ClearQueue(c) { assert ops[1..][k] == ops[k + 1]; }
      FirstInFirstOut(n, ops[1..], c);
      var out := if op == Dequeue(c) && Queued(m, c) != [] then [Queued(m, c)[0]] else [];
      var into := if op.Enqueue? && op.campaign == c then op.ids else [];
      if op.campaign != c { OtherCampaignInMemory(m, op, c); }
      assert MemoryAnswers(m, ops)[1..] == MemoryAnswers(n, ops[1..]);
      Regroup(out, TakenBy(ops[1..], MemoryAnswers(n, ops[1..]), c), Queued(MemoryEnd(n, ops[1..]), c),
              Queued(m, c), into, EnqueuedIn(ops[1..], c), Queued(n, c));
    }
  }

  /** So what a new Redis queue answers are the first of the identifiers enqueued, in their order. */
  lemma RedisFirstInFirstOut(ops: seq<QueueOp>, c: string)
    requires forall k :: 0 <= k < |ops| ==> ops[k] != ClearQueue(c)
    ensures TakenBy(ops, RedisAnswers(map[], ops), c) <= EnqueuedIn(ops, c)
  {
    var empty := MemoryState(map[], map[], map[]);
    NewQueuesAgree(ops);
    FirstInFirstOut(empty, ops, c);
    assert Queued(empty, c) + EnqueuedIn(ops, c) == EnqueuedIn(ops, c);
  }

  // ---- what is read is what was written last ----

  function LastText(ops: seq<QueueOp>, c: string, before: string): string {
    if ops == [] then before
    else LastText(ops[1..], c, if ops[0].SetState? && ops[0].campaign == c then ops[0].text else before)
  }

  function LastSaved(ops: seq<QueueOp>, c: string, before: Option<Snapshot>): Option<Snapshot> {
    if ops == [] then before
    else LastSaved(ops[1..], c, if ops[0].SetProgress? && ops[0].campaign == c then Some(ops[0].snapshot) else before)
  }

  lemma {:induction false} ReadsTheLastWrite(m: MemoryState, ops: seq<QueueOp>, c: string)
    ensures MemoryAnswer(MemoryEnd(m, ops), GetState(c)) == Text(LastText(ops, c, StateText(m, c)))
    ensures MemoryAnswer(MemoryEnd(m, ops), GetProgress(c)) == Saved(LastSaved(ops, c, SavedProgress(m, c)))
    decreases |ops|
  {
    if ops != [] { ReadsTheLastWrite(MemoryNext(m, ops[0]), ops[1..], c); }
  }
}
