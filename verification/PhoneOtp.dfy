/** One-time login codes by SMS: how often they are issued, and how often each may be guessed. */
module PhoneOtp {
  import opened Wrappers

  type Phone = nat

  /** A stored code; the hash is taken to be injective, so the code itself stands for it.  Times are in milliseconds. */
  datatype Otp = Otp(id: nat, phone: Phone, code: nat, attempts: nat, expiresAt: int, used: bool, createdAt: int)

  datatype Creation = Creation(phone: Phone, time: int)

  datatype Guess = Guess(id: nat, time: int, correct: bool)

  /** `created` and `guesses` remember every code ever issued, by its id, and every comparison ever made. */
  datatype State = State(rows: seq<Otp>, now: int, created: seq<Creation>, guesses: seq<Guess>)

  const COOLDOWN := 60 * 1000
  const LIFETIME := 5 * 60 * 1000
  const MAX_ATTEMPTS := 5

  datatype Event = Request(phone: Phone, code: nat) | Verify(phone: Phone, code: nat) | Purge | Wait(ms: nat)

  predicate CoolingDown(s: State, phone: Phone) {
    exists i :: 0 <= i < |s.rows| && s.rows[i].phone == phone && s.rows[i].createdAt >= s.now - COOLDOWN
  }

  /** The position of the newest unused code of a phone. */
  function Newest(rows: seq<Otp>, phone: Phone): (r: Option<nat>)
    ensures r.Some? ==> r.value < |rows| && rows[r.value].phone == phone && !rows[r.value].used
  {
    if rows == [] then None
    else
      var n := |rows| - 1;
      var before := Newest(rows[..n], phone);
      if rows[n].phone == phone && !rows[n].used
         && (before.None? || rows[before.value].createdAt <= rows[n].createdAt) then Some(n)
      else before
  }

  /** The code a verification is compared with, when it gets that far. */
  function Candidate(s: State, phone: Phone): (r: Option<nat>)
    ensures r.Some? ==> r.value < |s.rows| && s.rows[r.value].phone == phone && !s.rows[r.value].used
                        && s.rows[r.value].expiresAt >= s.now && s.rows[r.value].attempts < MAX_ATTEMPTS
  {
    var k := Newest(s.rows, phone);
    if k.None? || s.rows[k.value].expiresAt < s.now || s.rows[k.value].attempts >= MAX_ATTEMPTS then None else k
  }

  function Purged(rows: seq<Otp>, cutoff: int): seq<Otp> {
    if rows == [] then []
    else Purged(rows[..|rows| - 1], cutoff) + (if rows[|rows| - 1].createdAt < cutoff then [] else [rows[|rows| - 1]])
  }

  function Apply(s: State, e: Event): State {
    match e
    case Request(phone, code) =>
      if CoolingDown(s, phone) then s
      else s.(rows := s.rows + [Otp(|s.created|, phone, code, 0, s.now + LIFETIME, false, s.now)],
              created := s.created + [Creation(phone, s.now)])
    case Verify(phone, code) =>
      var k := Candidate(s, phone);
      if k.None? then s
      else
        var row := s.rows[k.value];
        var correct := row.code == code;
        s.(rows := s.rows[k.value := if correct then row.(used := true) else row.(attempts := row.attempts + 1)],
           guesses := s.guesses + [Guess(row.id, s.now, correct)])
    case Purge => s.(rows := Purged(s.rows, s.now - LIFETIME))
    case Wait(ms) => s.(now := s.now + ms)
  }

  function Final(s: State, run: seq<Event>): State
    decreases |run|
  {
    if run == [] then s else Final(Apply(s, run[0]), run[1..])
  }

  predicate IsEmpty(s: State) {
    s.rows == [] && s.created == [] && s.guesses == []
  }

  class OtpService {
    var rows: seq<Otp>
    var now: int
    var created: seq<Creation>
    var guesses: seq<Guess>

    function View(): State
      reads this
    {
      State(rows, now, created, guesses)
    }

    constructor (now: int)
      ensures IsEmpty(View()) && this.now == now
    {
      rows, this.now, created, guesses := [], now, [], [];
    }

    method RequestPhoneOtp(phone: Phone, code: nat) returns (sent: bool)
      modifies this
      ensures sent <==> forall i :: 0 <= i < |old(rows)| && old(rows)[i].phone == phone ==>
                          old(rows)[i].createdAt < now - 60_000
      ensures View() == Apply(old(View()), Request(phone, code))
      ensures rows == old(rows)
                      + (if sent then [Otp(|old(created)|, phone, code, 0, now + 300_000, false, now)] else [])
    {
      var k := 0;
      while k < |rows|
        invariant 0 <= k <= |rows|
        invariant forall i :: 0 <= i < k ==> !(rows[i].phone == phone && rows[i].createdAt >= now - COOLDOWN)
        invariant View() == old(View())
      {
        if rows[k].phone == phone && rows[k].createdAt >= now - COOLDOWN { return false; }
        k := k + 1;
      }
      rows := rows + [Otp(|created|, phone, code, 0, now + LIFETIME, false, now)];
      created := created + [Creation(phone, now)];
      sent := true;
    }

    method VerifyPhoneOtp(phone: Phone, code: nat) returns (accepted: bool)
      modifies this
      ensures accepted <==> old(Candidate(View(), phone).Some? && rows[Candidate(View(), phone).value].code == code)
      ensures View() == Apply(old(View()), Verify(phone, code))
    {
      var k := Newest(rows, phone);
      if k.None? { return false; }
      var record := rows[k.value];
      if record.expiresAt < now { return false; }
      if record.attempts >= MAX_ATTEMPTS { return false; }
      accepted := record.code == code;
      if accepted { record := record.(used := true); } else { record := record.(attempts := record.attempts + 1); }
      rows := rows[k.value := record];
      guesses := guesses + [Guess(record.id, now, accepted)];
    }
  }

  // ---- what is kept ----

  /** The row is the one created under its id. */
  predicate RowOk(s: State, r: Otp) {
    && r.id < |s.created| && s.created[r.id] == Creation(r.phone, r.createdAt)
    && r.createdAt <= s.now && r.expiresAt == r.createdAt + LIFETIME && r.attempts <= MAX_ATTEMPTS
  }

  predicate HasRow(rows: seq<Otp>, id: nat) {
    exists i :: 0 <= i < |rows| && rows[i].id == id
  }

  predicate Increasing(rows: seq<Otp>) {
    forall i, j :: 0 <= i < j < |rows| ==> rows[i].id < rows[j].id
  }

  predicate RowsInv(s: State) {
    && (forall i :: 0 <= i < |s.rows| ==> RowOk(s, s.rows[i]))
    && Increasing(s.rows)
    && (forall id :: 0 <= id < |s.created| && s.created[id].time >= s.now - LIFETIME ==> HasRow(s.rows, id))
    && (forall id :: 0 <= id < |s.created| ==> s.created[id].time <= s.now)
  }

  predicate Spaced(created: seq<Creation>) {
    forall i, j :: 0 <= i < j < |created| && created[i].phone == created[j].phone
      ==> created[j].time > created[i].time + COOLDOWN
  }

  lemma {:induction false} PurgedRows(rows: seq<Otp>, cutoff: int)
    requires Increasing(rows)
    ensures forall r :: r in Purged(rows, cutoff) <==> r in rows && r.createdAt >= cutoff
    ensures Increasing(Purged(rows, cutoff))
  {
    if rows != [] {
      var n := |rows| - 1;
      PurgedRows(rows[..n], cutoff);
      assert rows == rows[..n] + [rows[n]];
      var p := Purged(rows[..n], cutoff);
      var last := if rows[n].createdAt < cutoff then [] else [rows[n]];
      assert Purged(rows, cutoff) == p + last;
      forall i | 0 <= i < |p| ensures p[i].id < rows[n].id {
        assert p[i] in rows[..n];
        var j :| 0 <= j < n && rows[..n][j] == p[i];
        assert rows[j].id < rows[n].id;
      }
      assert forall i, j :: 0 <= i < j < |p + last| ==> (p + last)[i].id < (p + last)[j].id;
    }
  }

  lemma RowsPurge(s: State)
    requires RowsInv(s)
    ensures RowsInv(Apply(s, Purge))
  {
    var t := Apply(s, Purge);
    PurgedRows(s.rows, s.now - LIFETIME);
    forall i | 0 <= i < |t.rows| ensures RowOk(t, t.rows[i]) {
      assert t.rows[i] in s.rows;
    }
    forall id | 0 <= id < |t.created| && t.created[id].time >= t.now - LIFETIME ensures HasRow(t.rows, id) {
      assert HasRow(s.rows, id);
      var i :| 0 <= i < |s.rows| && s.rows[i].id == id;
      assert RowOk(s, s.rows[i]) && s.rows[i] in s.rows;
      assert s.rows[i] in t.rows;
    }
  }

  lemma RowsRequest(s: State, phone: Phone, code: nat)
    requires RowsInv(s) && Spaced(s.created)
    ensures RowsInv(Apply(s, Request(phone, code))) && Spaced(Apply(s, Request(phone, code)).created)
  {
    var t := Apply(s, Request(phone, code));
    if !CoolingDown(s, phone) {
      var n := |s.created|;
      forall i | 0 <= i < |t.rows| ensures RowOk(t, t.rows[i]) {
        if i < |s.rows| { assert RowOk(s, s.rows[i]); }
      }
      forall i | 0 <= i < |s.rows| ensures s.rows[i].id < n { assert RowOk(s, s.rows[i]); }
      forall id | 0 <= id < |t.created| && t.created[id].time >= t.now - LIFETIME ensures HasRow(t.rows, id) {
        if id < n {
          assert HasRow(s.rows, id);
          var i :| 0 <= i < |s.rows| && s.rows[i].id == id;
          assert t.rows[i].id == id;
        } else {
          assert t.rows[|s.rows|].id == id;
        }
      }
      forall i | 0 <= i < n && s.created[i].phone == phone ensures s.now > s.created[i].time + COOLDOWN {
        assert s.created[i].time >= s.now - LIFETIME ==> HasRow(s.rows, i);
      }
    }
  }

  lemma RowsVerify(s: State, phone: Phone, code: nat)
    requires RowsInv(s)
    ensures RowsInv(Apply(s, Verify(phone, code)))
  {
    var t := Apply(s, Verify(phone, code));
    var k := Candidate(s, phone);
    if k.Some? {
      forall i | 0 <= i < |t.rows| ensures RowOk(t, t.rows[i]) && t.rows[i].id == s.rows[i].id {
        assert RowOk(s, s.rows[i]);
      }
      forall id | 0 <= id < |t.created| && t.created[id].time >= t.now - LIFETIME ensures HasRow(t.rows, id) {
        assert HasRow(s.rows, id);
        var i :| 0 <= i < |s.rows| && s.rows[i].id == id;
        assert t.rows[i].id == id;
      }
    }
  }

  lemma RowsStep(s: State, e: Event)
    requires RowsInv(s) && Spaced(s.created)
    ensures RowsInv(Apply(s, e)) && Spaced(Apply(s, e).created)
  {
    match e
    case Request(phone, code) => RowsRequest(s, phone, code);
    case Verify(phone, code) => RowsVerify(s, phone, code);
    case Purge => RowsPurge(s);
    case Wait(ms) =>
      var t := Apply(s, e);
      forall i | 0 <= i < |t.rows| ensures RowOk(t, t.rows[i]) { assert RowOk(s, s.rows[i]); }
  }

  // ---- guesses ----

  function WrongGuesses(guesses: seq<Guess>, id: nat): nat {
    if guesses == [] then 0
    else (if guesses[|guesses| - 1].id == id && !guesses[|guesses| - 1].correct then 1 else 0)
         + WrongGuesses(guesses[..|guesses| - 1], id)
  }

  function RightGuesses(guesses: seq<Guess>, id: nat): nat {
    if guesses == [] then 0
    else (if guesses[|guesses| - 1].id == id && guesses[|guesses| - 1].correct then 1 else 0)
         + RightGuesses(guesses[..|guesses| - 1], id)
  }

  predicate Timely(created: seq<Creation>, g: Guess) {
    g.id < |created| && created[g.id].time <= g.time <= created[g.id].time + LIFETIME
  }

  /** A stored code's counters are its history; no code, stored or purged, has taken more guesses than allowed. */
  predicate GuessInv(s: State, id: nat) {
    && WrongGuesses(s.guesses, id) <= MAX_ATTEMPTS
    && RightGuesses(s.guesses, id) <= 1
    && (id >= |s.created| ==> WrongGuesses(s.guesses, id) == 0 == RightGuesses(s.guesses, id))
    && (forall i :: 0 <= i < |s.rows| && s.rows[i].id == id ==>
          s.rows[i].attempts == WrongGuesses(s.guesses, id) && (RightGuesses(s.guesses, id) > 0 ==> s.rows[i].used))
    && (forall k :: 0 <= k < |s.guesses| ==> Timely(s.created, s.guesses[k]))
  }

  lemma GuessStep(s: State, e: Event, id: nat)
    requires RowsInv(s) && GuessInv(s, id)
    ensures GuessInv(Apply(s, e), id)
  {
    var t := Apply(s, e);
    match e
    case Verify(_, _) =>
    case Purge =>
      PurgedRows(s.rows, s.now - LIFETIME);
      forall i | 0 <= i < |t.rows| && t.rows[i].id == id
        ensures t.rows[i].attempts == WrongGuesses(s.guesses, id)
        ensures RightGuesses(s.guesses, id) > 0 ==> t.rows[i].used
      {
        assert t.rows[i] in s.rows;
      }
      forall k | 0 <= k < |t.guesses| ensures Timely(t.created, t.guesses[k]) {
        assert Timely(s.created, s.guesses[k]);
      }
    case _ =>
      forall k | 0 <= k < |t.guesses| ensures Timely(t.created, t.guesses[k]) {
        assert Timely(s.created, s.guesses[k]);
      }
  }

  lemma {:induction false} Along(s: State, run: seq<Event>, id: nat)
    requires RowsInv(s) && Spaced(s.created) && GuessInv(s, id)
    ensures RowsInv(Final(s, run)) && Spaced(Final(s, run).created) && GuessInv(Final(s, run), id)
    decreases |run|
  {
    if run != [] {
      RowsStep(s, run[0]);
      GuessStep(s, run[0], id);
      Along(Apply(s, run[0]), run[1..], id);
    }
  }

  /** In every run a code takes at most five wrong guesses and is accepted at most once, purged or not. */
  lemma GuessesAreBounded(s0: State, run: seq<Event>, id: nat)
    requires IsEmpty(s0)
    ensures WrongGuesses(Final(s0, run).guesses, id) <= 5
    ensures RightGuesses(Final(s0, run).guesses, id) <= 1
  {
    Along(s0, run, id);
  }

  // ---- which code counts ----

  /** No unused code of the phone is younger. */
  predicate IsNewest(rows: seq<Otp>, phone: Phone, k: nat) {
    && k < |rows| && rows[k].phone == phone && !rows[k].used
    && forall j :: 0 <= j < |rows| && rows[j].phone == phone && !rows[j].used ==> rows[j].createdAt <= rows[k].createdAt
  }

  lemma {:induction false} NewestIsNewest(rows: seq<Otp>, phone: Phone)
    ensures var k := Newest(rows, phone);
      if k.Some? then IsNewest(rows, phone, k.value)
      else forall j :: 0 <= j < |rows| && rows[j].phone == phone ==> rows[j].used
  {
    if rows != [] {
      var n := |rows| - 1;
      NewestIsNewest(rows[..n], phone);
      forall j | 0 <= j < n ensures rows[j] == rows[..n][j] {}
    }
  }

  /** What a verification does when `k` is the phone's newest unused code. */
  predicate ComparedWith(s: State, t: State, k: nat, code: nat)
    requires k < |s.rows|
  {
    var row := s.rows[k];
    if s.now > row.createdAt + 300_000 || row.attempts >= 5 then t == s
    else if row.code == code then
      t == s.(rows := s.rows[k := row.(used := true)], guesses := s.guesses + [Guess(row.id, s.now, true)])
    else
      t == s.(rows := s.rows[k := row.(attempts := row.attempts + 1)],
              guesses := s.guesses + [Guess(row.id, s.now, false)])
  }

  lemma VerifyNewest(s: State, phone: Phone, code: nat, k: nat)
    requires RowsInv(s) && Spaced(s.created) && IsNewest(s.rows, phone, k)
    ensures ComparedWith(s, Apply(s, Verify(phone, code)), k, code)
  {
    NewestIsNewest(s.rows, phone);
    assert RowOk(s, s.rows[k]);
  }

  /**
    In every run a guess is compared with the phone's newest unused code, if that is at most five minutes old and has
    taken fewer than five wrong guesses.  A hit uses it up, a miss is counted, and otherwise nothing happens.
   */
  lemma VerifyMeans(s0: State, run: seq<Event>, phone: Phone, code: nat)
    requires IsEmpty(s0)
    ensures var s := Final(s0, run); var t := Apply(s, Verify(phone, code));
      && (forall k: nat :: IsNewest(s.rows, phone, k) ==> ComparedWith(s, t, k, code))
      && ((forall j :: 0 <= j < |s.rows| && s.rows[j].phone == phone ==> s.rows[j].used) ==> t == s)
  {
    var s := Final(s0, run);
    Along(s0, run, 0);
    forall k: nat | IsNewest(s.rows, phone, k) ensures ComparedWith(s, Apply(s, Verify(phone, code)), k, code) {
      VerifyNewest(s, phone, code, k);
    }
    NewestIsNewest(s.rows, phone);
  }

  /** The retention job deletes exactly the codes that are more than five minutes old. */
  lemma PurgeDeletesExpired(s0: State, run: seq<Event>, row: Otp)
    requires IsEmpty(s0)
    ensures var s := Final(s0, run);
      row in Apply(s, Purge).rows <==> row in s.rows && s.now <= row.createdAt + 300_000
  {
    Along(s0, run, 0);
    PurgedRows(Final(s0, run).rows, Final(s0, run).now - LIFETIME);
  }

  // ---- rates ----

  predicate Within(time: int, from: int, length: nat) {
    from <= time <= from + length
  }

  function CreatedWithin(created: seq<Creation>, phone: Phone, from: int, length: nat): nat {
    if created == [] then 0
    else
      var c := created[|created| - 1];
      (if c.phone == phone && Within(c.time, from, length) then 1 else 0)
      + CreatedWithin(created[..|created| - 1], phone, from, length)
  }

  /** With k codes of a phone in the window, one of them is late enough for the others to fit before it. */
  lemma {:induction false} LatestCode(created: seq<Creation>, phone: Phone, from: int, length: nat) returns (i: nat)
    requires Spaced(created) && CreatedWithin(created, phone, from, length) > 0
    ensures i < |created| && created[i].phone == phone && Within(created[i].time, from, length)
    ensures created[i].time >= from + (CreatedWithin(created, phone, from, length) - 1) * (COOLDOWN + 1)
  {
    var n := |created| - 1;
    if created[n].phone == phone && Within(created[n].time, from, length) {
      i := n;
      if CreatedWithin(created[..n], phone, from, length) > 0 {
        var j := LatestCode(created[..n], phone, from, length);
        assert created[..n][j] == created[j];
      }
    } else {
      i := LatestCode(created[..n], phone, from, length);
    }
  }

  lemma SpacedFit(created: seq<Creation>, phone: Phone, from: int, length: nat)
    requires Spaced(created)
    ensures CreatedWithin(created, phone, from, length) <= length / COOLDOWN + 1
  {
    if CreatedWithin(created, phone, from, length) > 0 {
      var i := LatestCode(created, phone, from, length);
    }
  }

  /** Codes for one phone are issued more than 60 s apart, so a window of L ms sees at most L / 60000 + 1 of them. */
  lemma CodesAreRateLimited(s0: State, run: seq<Event>, phone: Phone, from: int, length: nat)
    requires IsEmpty(s0)
    ensures Spaced(Final(s0, run).created)
    ensures CreatedWithin(Final(s0, run).created, phone, from, length) <= length / 60_000 + 1
  {
    Along(s0, run, 0);
    SpacedFit(Final(s0, run).created, phone, from, length);
  }

  /** Wrong guesses made in the window against codes numbered below n that belong to the phone. */
  function WrongWithin(guesses: seq<Guess>, created: seq<Creation>, n: nat, phone: Phone, from: int, length: nat): nat {
    if guesses == [] then 0
    else
      var g := guesses[|guesses| - 1];
      (if g.id < n && g.id < |created| && created[g.id].phone == phone && !g.correct && Within(g.time, from, length)
       then 1 else 0)
      + WrongWithin(guesses[..|guesses| - 1], created, n, phone, from, length)
  }

  lemma {:induction false} OneMoreCode(guesses: seq<Guess>, created: seq<Creation>, n: nat,
                                       phone: Phone, from: int, length: nat)
    requires n < |created|
    requires forall k :: 0 <= k < |guesses| ==> Timely(created, guesses[k])
    ensures WrongWithin(guesses, created, n + 1, phone, from, length)
         <= WrongWithin(guesses, created, n, phone, from, length)
            + (if created[n].phone == phone && Within(created[n].time, from - LIFETIME, length + LIFETIME)
               then WrongGuesses(guesses, n) else 0)
  {
    if guesses != [] { OneMoreCode(guesses[..|guesses| - 1], created, n, phone, from, length); }
  }

  lemma {:induction false} NoCodes(guesses: seq<Guess>, created: seq<Creation>, phone: Phone, from: int, length: nat)
    ensures WrongWithin(guesses, created, 0, phone, from, length) == 0
  {
    if guesses != [] { NoCodes(guesses[..|guesses| - 1], created, phone, from, length); }
  }

  lemma {:induction false} WrongPerCode(s0: State, run: seq<Event>, n: nat, phone: Phone, from: int, length: nat)
    requires IsEmpty(s0) && n <= |Final(s0, run).created|
    ensures var s := Final(s0, run);
      WrongWithin(s.guesses, s.created, n, phone, from, length)
      <= MAX_ATTEMPTS * CreatedWithin(s.created[..n], phone, from - LIFETIME, length + LIFETIME)
  {
    var s := Final(s0, run);
    if n == 0 {
      NoCodes(s.guesses, s.created, phone, from, length);
    } else {
      WrongPerCode(s0, run, n - 1, phone, from, length);
      Along(s0, run, n - 1);
      forall k | 0 <= k < |s.guesses|
        ensures Timely(s.created, s.guesses[k])
      {
      }
      OneMoreCode(s.guesses, s.created, n - 1, phone, from, length);
      assert s.created[..n][..n - 1] == s.created[..n - 1];
    }
  }

  /**
    Rate and attempt limits together: in any window of L ms at most 5 * ((L + 300000) / 60000 + 1) wrong codes are tried
    for one phone, over any run, with the purge job running.
   */
  lemma GuessesAreRateLimited(s0: State, run: seq<Event>, phone: Phone, from: int, length: nat)
    requires IsEmpty(s0)
    ensures var s := Final(s0, run);
      WrongWithin(s.guesses, s.created, |s.created|, phone, from, length)
      <= 5 * ((length + 300_000) / 60_000 + 1)
  {
    var s := Final(s0, run);
    WrongPerCode(s0, run, |s.created|, phone, from, length);
    assert s.created[..|s.created|] == s.created;
    CodesAreRateLimited(s0, run, phone, from - LIFETIME, length + LIFETIME);
  }
}
