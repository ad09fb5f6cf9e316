/** The read-through cache from phone numbers to their owners, each service method one step at one time. */
module NumberCache {
  import opened Wrappers

  datatype NumberStatus = Active | Releasing | Released

  datatype NumberRow = NumberRow(userId: string, number: string, status: NumberStatus, releasedAt: int)

  /** A cached owner, readable strictly before its expiry; times are in seconds. */
  datatype Entry = Entry(userId: string, expiresAt: int)

  datatype State = State(rows: seq<NumberRow>, cache: map<string, Entry>, now: int)

  const TTL := 24 * 60 * 60

  const GRACE := 7 * 24 * 60 * 60

  /**
    The steps, each with the fate of the Redis commands it issues (a failed command is logged and ignored) and of the
    call to the provider (a failed one ends the step); `plan` is the number limit of the user's plan, if there is one.
   */
  datatype Event =
    | Provision(userId: string, number: string, plan: Option<nat>, providerOk: bool, setexOk: bool)
    | Release(userId: string, row: nat, providerOk: bool, delOk: bool)
    | Lookup(number: string, getOk: bool, setexOk: bool)
    | FinishReleases            // the daily grace period job
    | Evict(number: string)     // Redis may drop an entry at any time
    | Wait(seconds: nat)

  predicate OwnsActive(rows: seq<NumberRow>, number: string, userId: string) {
    exists i :: 0 <= i < |rows| && rows[i].number == number && rows[i].status.Active? && rows[i].userId == userId
  }

  predicate HasActive(rows: seq<NumberRow>, number: string) {
    exists i :: 0 <= i < |rows| && rows[i].number == number && rows[i].status.Active?
  }

  /** findFirst over the active rows of a number. */
  function TableLookup(rows: seq<NumberRow>, number: string): Option<string> {
    if rows == [] then None
    else if rows[0].number == number && rows[0].status.Active? then Some(rows[0].userId)
    else TableLookup(rows[1..], number)
  }

  /** What a successful GET returns; the service takes an empty text for a miss. */
  function Cached(s: State, number: string): Option<string> {
    if number in s.cache && s.now < s.cache[number].expiresAt && s.cache[number].userId != "" then
      Some(s.cache[number].userId)
    else None
  }

  /** What getUserByNumber returns. */
  function LookupResult(s: State, number: string, getOk: bool): Option<string> {
    if getOk && Cached(s, number).Some? then Cached(s, number) else TableLookup(s.rows, number)
  }

  function Store(s: State, number: string, userId: string, ok: bool): map<string, Entry> {
    if ok then s.cache[number := Entry(userId, s.now + TTL)] else s.cache
  }

  /** The row a release request names, if it is the user's and still active. */
  predicate CanRelease(s: State, userId: string, row: nat) {
    row < |s.rows| && s.rows[row].userId == userId && s.rows[row].status.Active?
  }

  /** How many active numbers a user has. */
  function ActiveCount(rows: seq<NumberRow>, userId: string): nat {
    if rows == [] then 0
    else
      var n := |rows| - 1;
      ActiveCount(rows[..n], userId) + (if rows[n].userId == userId && rows[n].status.Active? then 1 else 0)
  }

  predicate WithinPlan(s: State, userId: string, plan: Option<nat>) {
    plan.Some? && ActiveCount(s.rows, userId) < plan.value
  }

  predicate Expired(s: State, r: NumberRow) {
    r.status.Releasing? && r.releasedAt <= s.now - GRACE
  }

  function Apply(s: State, e: Event): State {
    match e
    case Provision(userId, number, plan, providerOk, setexOk) =>
      if !WithinPlan(s, userId, plan) || !providerOk then s
      else s.(rows := s.rows + [NumberRow(userId, number, Active, 0)], cache := Store(s, number, userId, setexOk))
    case Release(userId, row, providerOk, delOk) =>
      if !CanRelease(s, userId, row) || !providerOk then s
      else s.(rows := s.rows[row := s.rows[row].(status := Releasing, releasedAt := s.now)],
              cache := if delOk then s.cache - {s.rows[row].number} else s.cache)
    case Lookup(number, getOk, setexOk) =>
      if getOk && Cached(s, number).Some? then s
      else
        var found := TableLookup(s.rows, number);
        if found.Some? then s.(cache := Store(s, number, found.value, setexOk)) else s
    case FinishReleases =>
      s.(rows := seq(|s.rows|, i requires 0 <= i < |s.rows| =>
                   if Expired(s, s.rows[i]) then s.rows[i].(status := Released) else s.rows[i]))
    case Evict(number) => s.(cache := s.cache - {number})
    case Wait(seconds) => s.(now := s.now + seconds)
  }

  function Final(s: State, run: seq<Event>): State
    decreases |run|
  {
    if run == [] then s else Final(Apply(s, run[0]), run[1..])
  }

  // ---- the service, changing its table and cache in place ----

  class NumbersService {
    var rows: seq<NumberRow>
    var cache: map<string, Entry>
    var now: int

    function View(): State
      reads this
    {
      State(rows, cache, now)
    }

    constructor ()
      ensures View() == State([], map[], 0)
    {
      rows, cache, now := [], map[], 0;
    }

    method ProvisionNumber(userId: string, number: string, plan: Option<nat>, providerOk: bool, setexOk: bool)
      returns (provisioned: bool)
      modifies this
      ensures provisioned <==> plan.Some? && ActiveCount(old(rows), userId) < plan.value && providerOk
      ensures View() == Apply(old(View()), Provision(userId, number, plan, providerOk, setexOk))
      ensures rows == old(rows) + (if provisioned then [NumberRow(userId, number, Active, 0)] else [])
      ensures cache == if provisioned && setexOk then old(cache)[number := Entry(userId, now + 86_400)] else old(cache)
    {
      if plan.None? { return false; }
      if ActiveCount(rows, userId) >= plan.value { return false; }
      if !providerOk { return false; }
      provisioned := true;
      rows := rows + [NumberRow(userId, number, Active, 0)];
      if setexOk { cache := cache[number := Entry(userId, now + TTL)]; }
    }

    method ReleaseNumber(userId: string, row: nat, providerOk: bool, delOk: bool) returns (released: bool)
      modifies this
      ensures released <==>
        row < |old(rows)| && old(rows)[row].userId == userId && old(rows)[row].status.Active? && providerOk
      ensures View() == Apply(old(View()), Release(userId, row, providerOk, delOk))
      ensures released ==> rows == old(rows)[row := old(rows)[row].(status := Releasing, releasedAt := now)]
      ensures cache == if released && delOk then old(cache) - {old(rows)[row].number} else old(cache)
    {
      if row >= |rows| || rows[row].userId != userId { return false; }
      if rows[row].status.Releasing? || rows[row].status.Released? { return false; }
      if !providerOk { return false; }
      rows := rows[row := rows[row].(status := Releasing, releasedAt := now)];
      if delOk { cache := cache - {rows[row].number}; }
      released := true;
    }

    method GetUserByNumber(number: string, getOk: bool, setexOk: bool) returns (owner: Option<string>)
      modifies this`cache
      ensures owner == LookupResult(old(View()), number, getOk)
      ensures View() == Apply(old(View()), Lookup(number, getOk, setexOk))
      ensures var hit := getOk && number in old(cache) && now < old(cache)[number].expiresAt
                         && old(cache)[number].userId != "";
        && owner == (if hit then Some(old(cache)[number].userId) else TableLookup(rows, number))
        && cache == if !hit && owner.Some? && setexOk then old(cache)[number := Entry(owner.value, now + 86_400)]
                    else old(cache)
    {
      if getOk && number in cache && now < cache[number].expiresAt && cache[number].userId != "" {
        return Some(cache[number].userId);
      }
      owner := TableLookup(rows, number);
      if owner.Some? && setexOk { cache := cache[number := Entry(owner.value, now + TTL)]; }
    }
  }

  // ---- invariants ----

  /** The provider hands out only numbers nobody holds. */
  predicate HandsOutFree(s: State, e: Event) {
    e.Provision? && e.providerOk ==> !HasActive(s.rows, e.number)
  }

  predicate Feasible(s: State, run: seq<Event>)
    decreases |run|
  {
    run == [] || (HandsOutFree(s, run[0]) && Feasible(Apply(s, run[0]), run[1..]))
  }

  /** At most one active row per number. */
  predicate UniqueInv(rows: seq<NumberRow>) {
    forall i, j :: 0 <= i < j < |rows| && rows[i].status.Active? && rows[j].status.Active?
      ==> rows[i].number != rows[j].number
  }

  lemma {:induction false} TableLookupFinds(rows: seq<NumberRow>, number: string)
    ensures TableLookup(rows, number).None? ==> !HasActive(rows, number)
    ensures TableLookup(rows, number).Some? ==> OwnsActive(rows, number, TableLookup(rows, number).value)
  {
    if rows != [] && !(rows[0].number == number && rows[0].status.Active?) {
      TableLookupFinds(rows[1..], number);
      var found := TableLookup(rows[1..], number);
      if found.Some? {
        var i :| 0 <= i < |rows[1..]| && rows[1..][i].number == number && rows[1..][i].status.Active?
                 && rows[1..][i].userId == found.value;
        assert rows[i + 1].userId == found.value;
      }
      if HasActive(rows, number) {
        var i :| 0 <= i < |rows| && rows[i].number == number && rows[i].status.Active?;
        assert rows[1..][i - 1] == rows[i];
      }
    }
  }

  /** The user's last release of the number was at `t`. */
  predicate ReleasedAtOrAfter(rows: seq<NumberRow>, number: string, userId: string, t: int) {
    exists i :: 0 <= i < |rows| && rows[i].number == number && rows[i].userId == userId
                && !rows[i].status.Active? && rows[i].releasedAt >= t
  }

  /** A cached owner still owns the number, or gave it up after the entry was last written. */
  predicate EntryOk(s: State, number: string)
    requires number in s.cache
  {
    var e := s.cache[number];
    || (OwnsActive(s.rows, number, e.userId) && e.expiresAt <= s.now + TTL)
    || ReleasedAtOrAfter(s.rows, number, e.userId, e.expiresAt - TTL)
  }

  predicate StaleInv(s: State) {
    UniqueInv(s.rows) && forall number :: number in s.cache ==> EntryOk(s, number)
  }

  lemma EntryKept(s: State, e: Event, number: string)
    requires number in s.cache && EntryOk(s, number)
    requires var t := Apply(s, e); number in t.cache && t.cache[number] == s.cache[number]
    ensures EntryOk(Apply(s, e), number)
  {
    var t, user := Apply(s, e), s.cache[number].userId;
    if OwnsActive(s.rows, number, user) && s.cache[number].expiresAt <= s.now + TTL {
      var i :| 0 <= i < |s.rows| && s.rows[i].number == number && s.rows[i].status.Active? && s.rows[i].userId == user;
      if t.rows[i].status.Active? { assert OwnsActive(t.rows, number, user); }
      else { assert t.rows[i].releasedAt == s.now; }
    } else {
      var i :| 0 <= i < |s.rows| && s.rows[i].number == number && s.rows[i].userId == user
               && !s.rows[i].status.Active? && s.rows[i].releasedAt >= s.cache[number].expiresAt - TTL;
      assert t.rows[i].number == number && t.rows[i].userId == user && !t.rows[i].status.Active?;
      assert t.rows[i].releasedAt == s.rows[i].releasedAt;
    }
  }

  // ---- transparency when deletes succeed ----

  predicate DeletesSucceed(run: seq<Event>) {
    forall k :: 0 <= k < |run| ==> (run[k].Release? ==> run[k].delOk)
  }

  /** Every cached owner is the present one. */
  predicate FreshInv(s: State) {
    UniqueInv(s.rows) && forall number :: number in s.cache ==> OwnsActive(s.rows, number, s.cache[number].userId)
  }

  lemma FreshStep(s: State, e: Event)
    requires HandsOutFree(s, e) && FreshInv(s) && (e.Release? ==> e.delOk)
    ensures FreshInv(Apply(s, e))
  {
    var t := Apply(s, e);
    assert UniqueInv(t.rows);
    forall number | number in t.cache ensures OwnsActive(t.rows, number, t.cache[number].userId) {
      if number in s.cache && t.cache[number] == s.cache[number] {
        var user := s.cache[number].userId;
        var i :| 0 <= i < |s.rows| && s.rows[i].number == number && s.rows[i].status.Active?
                 && s.rows[i].userId == user;
        assert t.rows[i].number == number && t.rows[i].status.Active? && t.rows[i].userId == user;
      } else if e.Provision? {
        assert t.rows[|s.rows|] == NumberRow(e.userId, e.number, Active, 0);
      } else {
        TableLookupFinds(s.rows, number);
      }
    }
  }

  lemma {:induction false} FreshAlong(s: State, run: seq<Event>)
    requires Feasible(s, run) && DeletesSucceed(run) && FreshInv(s)
    ensures FreshInv(Final(s, run))
    decreases |run|
  {
    if run != [] {
      assert run[0].Release? ==> run[0].delOk;
      FreshStep(s, run[0]);
      forall k | 0 <= k < |run[1..]| ensures run[1..][k].Release? ==> run[1..][k].delOk {
        assert run[1..][k] == run[k + 1];
      }
      FreshAlong(Apply(s, run[0]), run[1..]);
    }
  }

  predicate IsEmpty(s: State) {
    s.rows == [] && s.cache == map[]
  }

  /** If no delete fails, a lookup always answers what the table says, whatever reads, writes and evictions do. */
  lemma CacheIsTransparent(s0: State, run: seq<Event>, number: string, getOk: bool)
    requires IsEmpty(s0) && Feasible(s0, run) && DeletesSucceed(run)
    ensures LookupResult(Final(s0, run), number, getOk) == TableLookup(Final(s0, run).rows, number)
  {
    FreshAlong(s0, run);
    var s := Final(s0, run);
    TableLookupFinds(s.rows, number);
  }

  // ---- bounded staleness when deletes fail ----

  lemma {:induction false} StaleAlong(s: State, run: seq<Event>)
    requires Feasible(s, run) && StaleInv(s)
    ensures StaleInv(Final(s, run))
    decreases |run|
  {
    if run != [] {
      var e, t := run[0], Apply(s, run[0]);
      assert UniqueInv(t.rows);
      forall number | number in t.cache ensures EntryOk(t, number) {
        if number in s.cache && t.cache[number] == s.cache[number] {
          EntryKept(s, e, number);
        } else if e.Provision? {
          assert t.rows[|s.rows|] == NumberRow(e.userId, e.number, Active, 0);
        } else {
          TableLookupFinds(s.rows, number);
        }
      }
      StaleAlong(t, run[1..]);
    }
  }

  /**
    Whatever fails, an answer names a user who owns the number now, or who gave it up less than 24 hours ago.
   */
  lemma StalenessIsBounded(s0: State, run: seq<Event>, number: string, getOk: bool)
    requires IsEmpty(s0) && Feasible(s0, run)
    requires LookupResult(Final(s0, run), number, getOk).Some?
    ensures var s := Final(s0, run); var user := LookupResult(s, number, getOk).value;
      || OwnsActive(s.rows, number, user)
      || exists i :: 0 <= i < |s.rows| && s.rows[i].number == number && s.rows[i].userId == user
           && !s.rows[i].status.Active? && s.now < s.rows[i].releasedAt + 86_400
  {
    StaleAlong(s0, run);
    var s := Final(s0, run);
    TableLookupFinds(s.rows, number);
    if getOk && Cached(s, number).Some? && !OwnsActive(s.rows, number, s.cache[number].userId) {
      assert EntryOk(s, number);
      var e := s.cache[number];
      var i :| 0 <= i < |s.rows| && s.rows[i].number == number && s.rows[i].userId == e.userId
               && !s.rows[i].status.Active? && s.rows[i].releasedAt >= e.expiresAt - TTL;
      assert s.now < s.rows[i].releasedAt + TTL;
    }
  }

  /**
    In every reachable state: when the delete of a release fails, the old owner is still named exactly until the cache
    entry expires, and nobody after that, while the table names nobody at once.
   */
  lemma StaleAnswer(s0: State, run: seq<Event>, userId: string, row: nat, seconds: nat)
    requires IsEmpty(s0) && Feasible(s0, run)
    requires var s := Final(s0, run);
      CanRelease(s, userId, row) && Cached(s, s.rows[row].number) == Some(userId)
    ensures var s := Final(s0, run); var number := s.rows[row].number;
      var t := Apply(Apply(s, Release(userId, row, true, false)), Wait(seconds));
      && TableLookup(t.rows, number) == None
      && LookupResult(t, number, true)
         == if s.now + seconds < s.cache[number].expiresAt then Some(userId) else None
  {
    StaleAlong(s0, run);
    var s := Final(s0, run);
    var t := Apply(Apply(s, Release(userId, row, true, false)), Wait(seconds));
    TableLookupFinds(t.rows, s.rows[row].number);
  }

  // ---- the grace period ----

  predicate GraceInv(s: State) {
    forall i :: 0 <= i < |s.rows| && s.rows[i].status.Released? ==> s.rows[i].releasedAt + GRACE <= s.now
  }

  lemma {:induction false} GraceAlong(s: State, run: seq<Event>)
    requires GraceInv(s)
    ensures GraceInv(Final(s, run))
    decreases |run|
  {
    if run != [] { GraceAlong(Apply(s, run[0]), run[1..]); }
  }

  /** In every run a number is finally released only seven days after its owner gave it up, and then by the next job. */
  lemma GracePeriodKept(s0: State, run: seq<Event>, i: nat)
    requires IsEmpty(s0) && i < |Final(s0, run).rows|
    ensures var s := Final(s0, run); var row, row' := s.rows[i], Apply(s, FinishReleases).rows[i];
      && (row.status.Released? ==> row.releasedAt + 604_800 <= s.now)
      && row' == if row.status.Releasing? && row.releasedAt + 604_800 <= s.now then row.(status := Released) else row
  {
    GraceAlong(s0, run);
  }

  // ---- the plan's limit ----

  function ActiveRows(rows: seq<NumberRow>, userId: string): set<int> {
    set i | 0 <= i < |rows| && rows[i].userId == userId && rows[i].status.Active?
  }

  /** What is compared with the plan is the number of the user's active rows. */
  lemma {:induction false} ActiveCountIsCardinality(rows: seq<NumberRow>, userId: string)
    ensures ActiveCount(rows, userId) == |ActiveRows(rows, userId)|
  {
    if rows != [] {
      var n := |rows| - 1;
      ActiveCountIsCardinality(rows[..n], userId);
      if rows[n].userId == userId && rows[n].status.Active? {
        assert ActiveRows(rows, userId) == ActiveRows(rows[..n], userId) + {n};
      } else {
        assert ActiveRows(rows, userId) == ActiveRows(rows[..n], userId);
      }
    }
  }

  lemma {:induction false} ActiveCountAtMost(rows: seq<NumberRow>, next: seq<NumberRow>, userId: string)
    requires |rows| == |next|
    requires forall i :: 0 <= i < |rows| ==>
      next[i].userId == rows[i].userId && (next[i].status.Active? ==> rows[i].status.Active?)
    ensures ActiveCount(next, userId) <= ActiveCount(rows, userId)
  {
    if rows != [] { ActiveCountAtMost(rows[..|rows| - 1], next[..|rows| - 1], userId); }
  }

  /** Every request of this user is made under a plan of at most `limit` numbers. */
  predicate PlanOf(run: seq<Event>, userId: string, limit: nat) {
    forall k :: 0 <= k < |run| && run[k].Provision? && run[k].userId == userId ==>
      run[k].plan.None? || run[k].plan.value <= limit
  }

  /** In no run does a user have more active numbers than the plan allows. */
  lemma {:induction false} PlanIsKept(s: State, run: seq<Event>, userId: string, limit: nat)
    requires PlanOf(run, userId, limit) && ActiveCount(s.rows, userId) <= limit
    ensures ActiveCount(Final(s, run).rows, userId) <= limit
    decreases |run|
  {
    if run != [] {
      var e, rest := run[0], run[1..];
      assert PlanOf(rest, userId, limit) by {
        forall k | 0 <= k < |rest| ensures rest[k] == run[k + 1] {}
      }
      if e.Provision? {
        assert (s.rows + [NumberRow(e.userId, e.number, Active, 0)])[..|s.rows|] == s.rows;
      } else {
        ActiveCountAtMost(s.rows, Apply(s, e).rows, userId);
      }
      PlanIsKept(Apply(s, e), rest, userId, limit);
    }
  }
}
