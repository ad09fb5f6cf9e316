/** The interceptor that refreshes an expired token once for all requests; a step is the code between two awaits. */
module TokenRefresh {
  import opened Sums

  datatype Phase =
    | Unsent
    | InFlight
    | Parked        // waits in failedQueue
    | Released      // its parked promise was resolved, about to be sent again
    | Leading       // started the refresh and awaits it
    | Resolved
    | Rejected

  datatype Request = Request(authUrl: bool, phase: Phase, retry: bool, sends: nat)

  datatype Settlement = Waiting | SettledBy(cycle: nat, ok: bool)

  /** One promise pushed to failedQueue: whose it is, and the refresh cycle during which it was pushed. */
  datatype Parking = Parking(request: nat, cycle: nat, settlement: Settlement)

  datatype State = State(
    requests: seq<Request>,
    isRefreshing: bool,
    failedQueue: seq<nat>,      // parkings not yet settled, oldest first
    outstanding: seq<nat>,      // leaders whose refresh call has not come back
    parkings: seq<Parking>,     // every promise ever pushed
    results: seq<bool>)         // how each finished refresh ended

  datatype Answer = Success | Unauthorized | OtherError

  datatype Event = Send(request: nat) | Respond(request: nat, answer: Answer) | Refreshed(call: nat, ok: bool)

  predicate CanSend(q: Request) { q.phase.Unsent? || q.phase.Released? }

  predicate Enabled(s: State, e: Event) {
    match e
    case Send(i) => i < |s.requests| && CanSend(s.requests[i])
    case Respond(i, _) => i < |s.requests| && s.requests[i].phase.InFlight?
    case Refreshed(k, _) => k < |s.outstanding| && s.outstanding[k] < |s.requests|
  }

  function Sent(q: Request): Request {
    q.(phase := InFlight, sends := q.sends + 1)
  }

  /** A 401 that the interceptor acts on. */
  predicate IsExpired(q: Request, a: Answer) {
    a.Unauthorized? && !q.retry && !q.authUrl
  }

  function RespondStep(s: State, i: nat, a: Answer): State
    requires Enabled(s, Respond(i, a))
  {
    var q := s.requests[i];
    if !IsExpired(q, a) then
      s.(requests := s.requests[i := q.(phase := if a.Success? then Resolved else Rejected)])
    else if s.isRefreshing then
      s.(requests := s.requests[i := q.(phase := Parked)],
         failedQueue := s.failedQueue + [|s.parkings|],
         parkings := s.parkings + [Parking(i, |s.results|, Waiting)])
    else
      s.(requests := s.requests[i := q.(phase := Leading, retry := true)],
         isRefreshing := true, outstanding := s.outstanding + [i])
  }

  /** processQueue: every waiting promise is resolved, or every one is rejected. */
  function SettledParkings(ps: seq<Parking>, queue: seq<nat>, cycle: nat, ok: bool): (r: seq<Parking>)
    ensures |r| == |ps|
    decreases |queue|
  {
    if queue == [] then ps
    else if queue[0] < |ps| then
      SettledParkings(ps[queue[0] := ps[queue[0]].(settlement := SettledBy(cycle, ok))], queue[1..], cycle, ok)
    else SettledParkings(ps, queue[1..], cycle, ok)
  }

  function SettledRequests(rs: seq<Request>, ps: seq<Parking>, queue: seq<nat>, ok: bool): (r: seq<Request>)
    ensures |r| == |rs|
    decreases |queue|
  {
    if queue == [] then rs
    else if queue[0] < |ps| && ps[queue[0]].request < |rs| then
      var i := ps[queue[0]].request;
      SettledRequests(rs[i := rs[i].(phase := if ok then Released else Rejected)], ps, queue[1..], ok)
    else SettledRequests(rs, ps, queue[1..], ok)
  }

  function RefreshedStep(s: State, k: nat, ok: bool): State
    requires Enabled(s, Refreshed(k, ok))
  {
    var leader := s.outstanding[k];
    var rs := SettledRequests(s.requests, s.parkings, s.failedQueue, ok);
    var q := rs[leader];
    State(rs[leader := if ok then Sent(q) else q.(phase := Rejected)],
          false, [], s.outstanding[..k] + s.outstanding[k + 1..],
          SettledParkings(s.parkings, s.failedQueue, |s.results|, ok), s.results + [ok])
  }

  function Apply(s: State, e: Event): State
    requires Enabled(s, e)
  {
    match e
    case Send(i) => s.(requests := s.requests[i := Sent(s.requests[i])])
    case Respond(i, a) => RespondStep(s, i, a)
    case Refreshed(k, ok) => RefreshedStep(s, k, ok)
  }

  predicate IsInitial(s: State) {
    && (forall i :: 0 <= i < |s.requests| ==> s.requests[i] == Request(s.requests[i].authUrl, Unsent, false, 0))
    && !s.isRefreshing && s.failedQueue == [] && s.outstanding == [] && s.parkings == [] && s.results == []
  }

  predicate Feasible(s: State, run: seq<Event>)
    decreases |run|
  {
    run == [] || (Enabled(s, run[0]) && Feasible(Apply(s, run[0]), run[1..]))
  }

  function Final(s: State, run: seq<Event>): State
    requires Feasible(s, run)
    decreases |run|
  {
    if run == [] then s else Final(Apply(s, run[0]), run[1..])
  }

  // ---- the interceptor's module variables, changed in place ----

  class Interceptor {
    var requests: seq<Request>
    var isRefreshing: bool
    var failedQueue: seq<nat>
    var outstanding: seq<nat>
    var parkings: seq<Parking>
    var results: seq<bool>

    function View(): State
      reads this
    {
      State(requests, isRefreshing, failedQueue, outstanding, parkings, results)
    }

    constructor (authUrls: seq<bool>)
      ensures IsInitial(View()) && |requests| == |authUrls|
      ensures forall i :: 0 <= i < |authUrls| ==> requests[i].authUrl == authUrls[i]
    {
      requests := seq(|authUrls|, i requires 0 <= i < |authUrls| => Request(authUrls[i], Unsent, false, 0));
      isRefreshing, failedQueue, outstanding, parkings, results := false, [], [], [], [];
    }

    method Transmit(i: nat)
      requires Enabled(View(), Send(i))
      modifies this`requests
      ensures View() == Apply(old(View()), Send(i))
      ensures var q := old(requests)[i]; requests == old(requests)[i := q.(phase := InFlight, sends := q.sends + 1)]
    {
      requests := requests[i := Sent(requests[i])];
    }

    /** The interceptor's error handler up to its first await, and the pass-through of successes. */
    method OnResponse(i: nat, a: Answer)
      requires Enabled(View(), Respond(i, a))
      modifies this
      ensures View() == Apply(old(View()), Respond(i, a))
      ensures var q := old(requests)[i];
        var acted := a.Unauthorized? && !q.retry && !q.authUrl;
        && requests[i].phase == (if a.Success? then Resolved else if !acted then Rejected
                                 else if old(isRefreshing) then Parked else Leading)
        && (requests[i].retry <==> q.retry || (acted && !old(isRefreshing)))
        && requests[i].sends == q.sends && requests[i].authUrl == q.authUrl
        && (isRefreshing <==> old(isRefreshing) || acted)
        && outstanding == old(outstanding) + (if acted && !old(isRefreshing) then [i] else [])
        && (!(acted && old(isRefreshing)) ==> failedQueue == old(failedQueue) && parkings == old(parkings))
        && (acted && old(isRefreshing) ==> failedQueue == old(failedQueue) + [|old(parkings)|]
                                           && parkings == old(parkings) + [Parking(i, |results|, Waiting)])
      ensures requests == old(requests)[i := requests[i]]
    {
      var q := requests[i];
      if a.Success? {
        requests := requests[i := q.(phase := Resolved)];
      } else if a.Unauthorized? && !q.retry {
        if q.authUrl {
          requests := requests[i := q.(phase := Rejected)];
          return;
        }
        if isRefreshing {
          failedQueue := failedQueue + [|parkings|];
          parkings := parkings + [Parking(i, |results|, Waiting)];
          requests := requests[i := q.(phase := Parked)];
          return;
        }
        isRefreshing := true;
        requests := requests[i := q.(phase := Leading, retry := true)];
        outstanding := outstanding + [i];
      } else {
        requests := requests[i := q.(phase := Rejected)];
      }
    }

    method ProcessQueue(ok: bool)
      modifies this`requests, this`parkings, this`failedQueue
      ensures requests == SettledRequests(old(requests), old(parkings), old(failedQueue), ok)
      ensures parkings == SettledParkings(old(parkings), old(failedQueue), |results|, ok)
      ensures failedQueue == []
    {
      ghost var ps := parkings;
      var k := 0;
      while k < |failedQueue|
        invariant 0 <= k <= |failedQueue| && |parkings| == |ps| && failedQueue == old(failedQueue)
        invariant forall p :: 0 <= p < |ps| ==> parkings[p].request == ps[p].request
        invariant SettledRequests(requests, ps, failedQueue[k..], ok)
               == SettledRequests(old(requests), ps, failedQueue, ok)
        invariant SettledParkings(parkings, failedQueue[k..], |results|, ok)
               == SettledParkings(ps, failedQueue, |results|, ok)
      {
        var p := failedQueue[k];
        assert failedQueue[k..][0] == p && failedQueue[k..][1..] == failedQueue[k + 1..];
        if p < |parkings| {
          var i := parkings[p].request;
          if i < |requests| { requests := requests[i := requests[i].(phase := if ok then Released else Rejected)]; }
          parkings := parkings[p := parkings[p].(settlement := SettledBy(|results|, ok))];
        }
        k := k + 1;
      }
      failedQueue := [];
    }

    /** The code after the awaited refresh call, with its finally block. */
    method OnRefreshed(k: nat, ok: bool)
      requires Enabled(View(), Refreshed(k, ok))
      modifies this
      ensures View() == Apply(old(View()), Refreshed(k, ok))
      ensures !isRefreshing && failedQueue == [] && results == old(results) + [ok]
      ensures requests[old(outstanding)[k]].phase == if ok then InFlight else Rejected
    {
      var leader := outstanding[k];
      ProcessQueue(ok);
      if ok {
        requests := requests[leader := Sent(requests[leader])];
      } else {
        requests := requests[leader := requests[leader].(phase := Rejected)];
      }
      isRefreshing := false;
      outstanding := outstanding[..k] + outstanding[k + 1..];
      results := results + [ok];
    }
  }

  // ---- invariants ----

  /** At most one refresh is outstanding, started by the one leading request; nobody waits without one. */
  predicate FlightInv(s: State) {
    && (if s.isRefreshing then |s.outstanding| == 1 else s.outstanding == [] && s.failedQueue == [])
    && (forall i :: 0 <= i < |s.requests| ==> (s.requests[i].phase.Leading? <==> i in s.outstanding))
    && (forall k :: 0 <= k < |s.outstanding| ==> s.outstanding[k] < |s.requests|)
    && (forall i :: 0 <= i < |s.requests| && s.requests[i].phase.Leading? ==> s.requests[i].retry)
  }

  /** Parking `p` waits in the queue for the present cycle, or was settled by the cycle in which it was made. */
  predicate ParkingOk(s: State, p: nat)
    requires p < |s.parkings|
  {
    var k := s.parkings[p];
    && k.request < |s.requests|
    && match k.settlement
       case Waiting => p in s.failedQueue && k.cycle == |s.results| && s.requests[k.request].phase.Parked?
       case SettledBy(cycle, ok) => p !in s.failedQueue && cycle == k.cycle < |s.results| && ok == s.results[cycle]
  }

  predicate ParkedOk(s: State, i: nat)
    requires i < |s.requests|
  {
    exists k :: 0 <= k < |s.failedQueue| && s.failedQueue[k] < |s.parkings| && s.parkings[s.failedQueue[k]].request == i
  }

  predicate ParkInv(s: State) {
    && (forall p :: 0 <= p < |s.parkings| ==> ParkingOk(s, p))
    && (forall k :: 0 <= k < |s.failedQueue| ==> s.failedQueue[k] < |s.parkings|)
    && (forall j, k :: 0 <= j < k < |s.failedQueue| ==> s.failedQueue[j] != s.failedQueue[k])
    && (forall j, k :: 0 <= j < k < |s.failedQueue| ==>
          s.parkings[s.failedQueue[j]].request != s.parkings[s.failedQueue[k]].request)
    && (forall i :: 0 <= i < |s.requests| && s.requests[i].phase.Parked? ==> ParkedOk(s, i))
  }

  lemma {:induction false} SettledParking(ps: seq<Parking>, queue: seq<nat>, cycle: nat, ok: bool, p: nat)
    requires p < |ps|
    ensures SettledParkings(ps, queue, cycle, ok)[p]
         == if p in queue then ps[p].(settlement := SettledBy(cycle, ok)) else ps[p]
    decreases |queue|
  {
    if queue != [] {
      assert p in queue <==> p == queue[0] || p in queue[1..];
      if queue[0] < |ps| {
        SettledParking(ps[queue[0] := ps[queue[0]].(settlement := SettledBy(cycle, ok))], queue[1..], cycle, ok, p);
      } else {
        SettledParking(ps, queue[1..], cycle, ok, p);
      }
    }
  }

  predicate IsParkedIn(ps: seq<Parking>, queue: seq<nat>, i: nat) {
    exists k :: 0 <= k < |queue| && queue[k] < |ps| && ps[queue[k]].request == i
  }

  lemma {:induction false} SettledRequest(rs: seq<Request>, ps: seq<Parking>, queue: seq<nat>, ok: bool, i: nat)
    requires i < |rs|
    ensures SettledRequests(rs, ps, queue, ok)[i]
         == if IsParkedIn(ps, queue, i) then rs[i].(phase := if ok then Released else Rejected) else rs[i]
    decreases |queue|
  {
    if queue != [] {
      var rest := queue[1..];
      var isFirst := queue[0] < |ps| && ps[queue[0]].request == i;
      assert IsParkedIn(ps, queue, i) <==> isFirst || IsParkedIn(ps, rest, i) by {
        if IsParkedIn(ps, rest, i) {
          var k :| 0 <= k < |rest| && rest[k] < |ps| && ps[rest[k]].request == i;
          assert queue[k + 1] == rest[k];
        }
        if IsParkedIn(ps, queue, i) && !isFirst {
          var k :| 0 <= k < |queue| && queue[k] < |ps| && ps[queue[k]].request == i;
          assert rest[k - 1] == queue[k];
        }
      }
      if queue[0] < |ps| && ps[queue[0]].request < |rs| {
        var j := ps[queue[0]].request;
        SettledRequest(rs[j := rs[j].(phase := if ok then Released else Rejected)], ps, rest, ok, i);
      } else {
        SettledRequest(rs, ps, rest, ok, i);
      }
    }
  }

  /** What a refresh does to each request: parked ones are settled, the leader is sent again or rejected. */
  lemma AfterRefresh(s: State, k: nat, ok: bool, i: nat)
    requires Enabled(s, Refreshed(k, ok)) && FlightInv(s) && ParkInv(s) && i < |s.requests|
    ensures |RefreshedStep(s, k, ok).requests| == |s.requests|
    ensures var q := s.requests[i]; var q' := RefreshedStep(s, k, ok).requests[i];
      q' == if i == s.outstanding[k] then (if ok then Sent(q) else q.(phase := Rejected))
            else if q.phase.Parked? then q.(phase := if ok then Released else Rejected)
            else q
  {
    SettledRequest(s.requests, s.parkings, s.failedQueue, ok, i);
    if IsParkedIn(s.parkings, s.failedQueue, i) {
      var j :| 0 <= j < |s.failedQueue| && s.failedQueue[j] < |s.parkings| && s.parkings[s.failedQueue[j]].request == i;
      assert ParkingOk(s, s.failedQueue[j]);
    } else {
      assert s.requests[i].phase.Parked? ==> ParkedOk(s, i);
    }
  }

  lemma FlightStep(s: State, e: Event)
    requires Enabled(s, e) && FlightInv(s) && ParkInv(s)
    ensures FlightInv(Apply(s, e))
  {
    if e.Refreshed? {
      var t := Apply(s, e);
      assert t.outstanding == [];
      forall i | 0 <= i < |t.requests| ensures !t.requests[i].phase.Leading? {
        AfterRefresh(s, e.call, e.ok, i);
      }
    }
  }

  lemma ParkSendOrSettle(s: State, t: State, i: nat)
    requires ParkInv(s) && i < |s.requests| && !s.requests[i].phase.Parked?
    requires t == s.(requests := t.requests, isRefreshing := t.isRefreshing, outstanding := t.outstanding)
    requires |t.requests| == |s.requests| && !t.requests[i].phase.Parked?
    requires forall j :: 0 <= j < |s.requests| && j != i ==> t.requests[j] == s.requests[j]
    ensures ParkInv(t)
  {
    forall p | 0 <= p < |t.parkings| ensures ParkingOk(t, p) { assert ParkingOk(s, p); }
    forall j | 0 <= j < |t.requests| && t.requests[j].phase.Parked? ensures ParkedOk(t, j) {
      assert ParkedOk(s, j);
      var k :| 0 <= k < |s.failedQueue| && s.failedQueue[k] < |s.parkings| && s.parkings[s.failedQueue[k]].request == j;
      assert t.failedQueue[k] == s.failedQueue[k];
    }
  }

  lemma ParkNew(s: State, i: nat, a: Answer)
    requires Enabled(s, Respond(i, a)) && ParkInv(s) && IsExpired(s.requests[i], a) && s.isRefreshing
    ensures ParkInv(RespondStep(s, i, a))
  {
    var t := RespondStep(s, i, a);
    var n := |s.parkings|;
    forall p | 0 <= p < |t.parkings| ensures ParkingOk(t, p) {
      if p < n {
        assert ParkingOk(s, p);
        assert p in t.failedQueue <==> p in s.failedQueue;
      } else {
        assert t.failedQueue[|s.failedQueue|] == n;
      }
    }
    forall k | 0 <= k < |s.failedQueue| ensures t.parkings[t.failedQueue[k]].request != i {
      assert ParkingOk(s, s.failedQueue[k]);
    }
    forall j | 0 <= j < |t.requests| && t.requests[j].phase.Parked? ensures ParkedOk(t, j) {
      if j == i {
        assert t.failedQueue[|s.failedQueue|] < |t.parkings| && t.parkings[t.failedQueue[|s.failedQueue|]].request == i;
      } else {
        assert ParkedOk(s, j);
        var k :| 0 <= k < |s.failedQueue| && s.failedQueue[k] < |s.parkings|
                 && s.parkings[s.failedQueue[k]].request == j;
        assert t.failedQueue[k] == s.failedQueue[k] && t.parkings[t.failedQueue[k]].request == j;
      }
    }
  }

  lemma ParkStep(s: State, e: Event)
    requires Enabled(s, e) && FlightInv(s) && ParkInv(s)
    ensures ParkInv(Apply(s, e))
  {
    match e
    case Send(i) => ParkSendOrSettle(s, Apply(s, e), i);
    case Respond(i, a) =>
      if IsExpired(s.requests[i], a) && s.isRefreshing { ParkNew(s, i, a); }
      else { ParkSendOrSettle(s, Apply(s, e), i); }
    case Refreshed(k, ok) =>
      var t := RefreshedStep(s, k, ok);
      forall p | 0 <= p < |t.parkings| ensures ParkingOk(t, p) {
        assert ParkingOk(s, p);
        SettledParking(s.parkings, s.failedQueue, |s.results|, ok, p);
      }
      forall i | 0 <= i < |t.requests| ensures !t.requests[i].phase.Parked? {
        AfterRefresh(s, k, ok, i);
      }
  }

  // ---- single flight ----

  lemma {:induction false} Along(s: State, run: seq<Event>)
    requires Feasible(s, run) && FlightInv(s) && ParkInv(s)
    ensures FlightInv(Final(s, run)) && ParkInv(Final(s, run))
    decreases |run|
  {
    if run != [] {
      FlightStep(s, run[0]);
      ParkStep(s, run[0]);
      Along(Apply(s, run[0]), run[1..]);
    }
  }

  /**
    In every run at most one refresh started by the interceptor is outstanding, nothing is queued without one, and a
    promise that was queued is settled by the refresh of the cycle it was queued in, the way that refresh ended.
   */
  lemma SingleFlight(s0: State, run: seq<Event>)
    requires IsInitial(s0) && Feasible(s0, run)
    ensures var s := Final(s0, run);
      && |s.outstanding| == (if s.isRefreshing then 1 else 0)
      && (!s.isRefreshing ==> s.failedQueue == [])
      && (forall p :: 0 <= p < |s.parkings| ==>
            if s.parkings[p].settlement.Waiting? then p in s.failedQueue
            else s.parkings[p].cycle < |s.results|
                 && s.parkings[p].settlement == SettledBy(s.parkings[p].cycle, s.results[s.parkings[p].cycle]))
  {
    Along(s0, run);
    var s := Final(s0, run);
    forall p | 0 <= p < |s.parkings|
      ensures if s.parkings[p].settlement.Waiting? then p in s.failedQueue
              else s.parkings[p].cycle < |s.results|
                   && s.parkings[p].settlement == SettledBy(s.parkings[p].cycle, s.results[s.parkings[p].cycle])
    {
      assert ParkingOk(s, p);
    }
  }

  /** A settled promise is never settled again. */
  lemma {:induction false} SettledOnce(s: State, run: seq<Event>, p: nat)
    requires Feasible(s, run) && FlightInv(s) && ParkInv(s) && p < |s.parkings| && !s.parkings[p].settlement.Waiting?
    ensures p < |Final(s, run).parkings| && Final(s, run).parkings[p] == s.parkings[p]
    decreases |run|
  {
    if run != [] {
      var e := run[0];
      FlightStep(s, e);
      ParkStep(s, e);
      assert ParkingOk(s, p);
      if e.Refreshed? { SettledParking(s.parkings, s.failedQueue, |s.results|, e.ok, p); }
      SettledOnce(Apply(s, e), run[1..], p);
    }
  }

  /** When nothing more can happen every request has its answer: no promise is left waiting. */
  lemma NobodyIsLeftWaiting(s0: State, run: seq<Event>)
    requires IsInitial(s0) && Feasible(s0, run)
    requires forall e :: !Enabled(Final(s0, run), e)
    ensures var s := Final(s0, run);
      && (forall i :: 0 <= i < |s.requests| ==> s.requests[i].phase.Resolved? || s.requests[i].phase.Rejected?)
      && (forall p :: 0 <= p < |s.parkings| ==> !s.parkings[p].settlement.Waiting?)
  {
    Along(s0, run);
    var s := Final(s0, run);
    if s.outstanding != [] {
      assert Enabled(s, Refreshed(0, true));
    }
    forall i | 0 <= i < |s.requests| ensures s.requests[i].phase.Resolved? || s.requests[i].phase.Rejected? {
      assert !Enabled(s, Send(i)) && !Enabled(s, Respond(i, Success));
      assert s.requests[i].phase.Parked? ==> ParkedOk(s, i);
    }
    forall p | 0 <= p < |s.parkings| ensures !s.parkings[p].settlement.Waiting? {
      assert ParkingOk(s, p);
    }
  }

  // ---- termination ----

  function Retried(): Request -> int { (q: Request) => if q.retry then 1 else 0 }
  function Sends(): Request -> int { (q: Request) => q.sends }
  function Flying(): Request -> int { (q: Request) => if q.phase.InFlight? then 1 else 0 }

  /** Refresh cycles begun: those finished and the one under way. */
  function Cycles(s: State): nat {
    |s.results| + (if s.isRefreshing then 1 else 0)
  }

  predicate SendsOk(q: Request, finished: nat) {
    match q.phase
    case Unsent => q.sends == 0 && !q.retry
    case Released => q.sends <= finished
    case _ => q.sends <= finished + 1
  }

  predicate CountInv(s: State) {
    && Sum(Retried(), s.requests) == Cycles(s)
    && (forall i :: 0 <= i < |s.requests| ==> SendsOk(s.requests[i], |s.results|))
  }

  /**
    n requests cause at most n refreshes, each led by a different request; no request is sent more than once per
    refresh plus once; and the protocol stops, after at most 2n(n+1) + n steps.
   */
  lemma RefreshTerminates(s0: State, run: seq<Event>)
    requires IsInitial(s0) && Feasible(s0, run)
    ensures var s := Final(s0, run); var n := |s0.requests|;
      && |s.requests| == n
      && Cycles(s) == Sum(Retried(), s.requests) <= n
      && (forall i :: 0 <= i < n ==> s.requests[i].sends <= Cycles(s) + 1 <= n + 1)
      && |run| <= 2 * (n * (n + 1)) + n
  {
    var s, n := Final(s0, run), |s0.requests|;
    SumIsZero(Retried(), s0.requests);
    assert Traffic(s0) == 0 by {
      SumIsZero(Sends(), s0.requests);
      SumIsZero(Flying(), s0.requests);
    }
    TrafficAlong(s0, run);
    TrafficBound(s);
    forall i | 0 <= i < n ensures s.requests[i].sends <= Cycles(s) + 1 <= n + 1 {
      assert SendsOk(s.requests[i], |s.results|);
    }
  }

  lemma {:induction false} SumAtMost2(f: Request -> int, rs: seq<Request>, qs: seq<Request>)
    requires |rs| == |qs| && forall i :: 0 <= i < |rs| ==> f(rs[i]) <= f(qs[i])
    ensures Sum(f, rs) <= Sum(f, qs)
  {
    if rs != [] { SumAtMost2(f, rs[..|rs| - 1], qs[..|qs| - 1]); }
  }

  lemma CountRespond(s: State, i: nat, a: Answer)
    requires Enabled(s, Respond(i, a)) && CountInv(s)
    ensures CountInv(RespondStep(s, i, a))
  {
    SumUpdate(Retried(), s.requests, i, RespondStep(s, i, a).requests[i]);
  }

  lemma CountRefreshed(s: State, k: nat, ok: bool)
    requires Enabled(s, Refreshed(k, ok)) && FlightInv(s) && ParkInv(s) && CountInv(s)
    ensures CountInv(RefreshedStep(s, k, ok))
  {
    var t := RefreshedStep(s, k, ok);
    forall i | 0 <= i < |t.requests|
      ensures t.requests[i].retry == s.requests[i].retry && SendsOk(t.requests[i], |t.results|)
    {
      AfterRefresh(s, k, ok, i);
      assert SendsOk(s.requests[i], |s.results|);
    }
    SumAtMost2(Retried(), t.requests, s.requests);
    SumAtMost2(Retried(), s.requests, t.requests);
  }

  /** Steps taken so far, in terms of what they left behind. */
  function Traffic(s: State): int {
    2 * Sum(Sends(), s.requests) - Sum(Flying(), s.requests) + |s.results|
  }

  lemma TrafficRefreshed(s: State, k: nat, ok: bool)
    requires Enabled(s, Refreshed(k, ok)) && FlightInv(s) && ParkInv(s)
    ensures Traffic(RefreshedStep(s, k, ok)) >= Traffic(s) + 1
  {
    var t, leader := RefreshedStep(s, k, ok), s.outstanding[k];
    var before := s.requests[leader := t.requests[leader]];
    forall i | 0 <= i < |t.requests|
      ensures Sends()(t.requests[i]) == Sends()(before[i]) && Flying()(t.requests[i]) == Flying()(before[i])
    {
      AfterRefresh(s, k, ok, i);
    }
    SumAtMost2(Sends(), before, t.requests);
    SumAtMost2(Flying(), t.requests, before);
    SumUpdate(Sends(), s.requests, leader, t.requests[leader]);
    SumUpdate(Flying(), s.requests, leader, t.requests[leader]);
    AfterRefresh(s, k, ok, leader);
  }

  lemma TrafficStep(s: State, e: Event)
    requires Enabled(s, e) && FlightInv(s) && ParkInv(s)
    ensures Traffic(Apply(s, e)) >= Traffic(s) + 1
  {
    var t := Apply(s, e);
    match e
    case Send(i) =>
      SumUpdate(Sends(), s.requests, i, t.requests[i]);
      SumUpdate(Flying(), s.requests, i, t.requests[i]);
    case Respond(i, a) =>
      SumUpdate(Sends(), s.requests, i, t.requests[i]);
      SumUpdate(Flying(), s.requests, i, t.requests[i]);
    case Refreshed(k, ok) => TrafficRefreshed(s, k, ok);
  }

  predicate ProtocolInv(s: State) {
    FlightInv(s) && ParkInv(s) && CountInv(s)
  }

  lemma ProtocolStep(s: State, e: Event)
    requires Enabled(s, e) && ProtocolInv(s)
    ensures ProtocolInv(Apply(s, e))
    ensures |Apply(s, e).requests| == |s.requests|
  {
    FlightStep(s, e);
    ParkStep(s, e);
    match e
    case Send(i) => SumUpdate(Retried(), s.requests, i, Apply(s, e).requests[i]);
    case Respond(i, a) => CountRespond(s, i, a);
    case Refreshed(k, ok) => CountRefreshed(s, k, ok);
  }

  lemma {:induction false} TrafficAlong(s: State, run: seq<Event>)
    requires Feasible(s, run) && ProtocolInv(s)
    ensures ProtocolInv(Final(s, run)) && |Final(s, run).requests| == |s.requests|
    ensures |run| + Traffic(s) <= Traffic(Final(s, run))
    decreases |run|
  {
    if run != [] {
      ProtocolStep(s, run[0]);
      TrafficStep(s, run[0]);
      TrafficAlong(Apply(s, run[0]), run[1..]);
    }
  }

  lemma {:induction false} SumBound(f: Request -> int, rs: seq<Request>, limit: int)
    requires forall i :: 0 <= i < |rs| ==> f(rs[i]) <= limit
    ensures Sum(f, rs) <= |rs| * limit
  {
    if rs != [] { SumBound(f, rs[..|rs| - 1], limit); }
  }

  lemma TrafficBound(s: State)
    requires ProtocolInv(s)
    ensures var n := |s.requests|; Cycles(s) <= n && Traffic(s) <= 2 * (n * (n + 1)) + n
  {
    var n := |s.requests|;
    SumBound(Retried(), s.requests, 1);
    forall i | 0 <= i < n ensures Sends()(s.requests[i]) <= n + 1 { assert SendsOk(s.requests[i], |s.results|); }
    assert Sum(Sends(), s.requests) <= n * (n + 1) by { SumBound(Sends(), s.requests, n + 1); }
    SumNonNegative(Flying(), s.requests);
  }
}
