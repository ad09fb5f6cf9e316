/**
  How each request ends, told from the events alone: its last response, whether it had led a refresh by then, and how
  the first refresh after that response ended.
 */
module RefreshAnswers {
  import opened Wrappers
  import opened TokenRefresh

  // ---- what the events of a run say ----

  /** Who has started a refresh, and whether one is under way: each request starts at most one. */
  datatype Starts = Starts(leaders: set<nat>, underWay: bool)

  function StartsIn(auth: nat -> bool, run: seq<Event>): Starts {
    if run == [] then Starts({}, false)
    else
      var before := StartsIn(auth, run[..|run| - 1]);
      match run[|run| - 1]
      case Send(_) => before
      case Refreshed(_, _) => before.(underWay := false)
      case Respond(i, a) =>
        if a == Unauthorized && !auth(i) && i !in before.leaders && !before.underWay then
          Starts(before.leaders + {i}, true)
        else before
  }

  /** A request's last response, whether it had led a refresh by then, and how the first refresh after it ended. */
  datatype Last = Last(answer: Option<Answer>, hadLed: bool, refresh: Option<bool>)

  function LastOf(auth: nat -> bool, run: seq<Event>, i: nat): Last {
    if run == [] then Last(None, false, None)
    else
      var front := run[..|run| - 1];
      var before := LastOf(auth, front, i);
      match run[|run| - 1]
      case Send(_) => before
      case Refreshed(_, ok) => if before.refresh.None? then before.(refresh := Some(ok)) else before
      case Respond(j, a) => if j == i then Last(Some(a), i in StartsIn(auth, front).leaders, None) else before
  }

  /** The interceptor acted on the last response. */
  predicate ActedOn(auth: nat -> bool, i: nat, last: Last) {
    last.answer == Some(Unauthorized) && !auth(i) && !last.hadLed
  }

  // ---- the interceptor follows them ----

  function AuthOf(s0: State): nat -> bool {
    (i: nat) => i < |s0.requests| && s0.requests[i].authUrl
  }

  predicate PhaseOk(auth: nat -> bool, i: nat, phase: Phase, last: Last) {
    match phase
    case Unsent => last.answer.None?
    case InFlight => last.answer.None? || (ActedOn(auth, i, last) && last.refresh == Some(true))
    case Parked | Leading => ActedOn(auth, i, last) && last.refresh.None?
    case Released => ActedOn(auth, i, last) && last.refresh == Some(true)
    case Resolved => last.answer == Some(Success)
    case Rejected =>
      || last.answer == Some(OtherError)
      || (last.answer == Some(Unauthorized) && (auth(i) || last.hadLed || last.refresh == Some(false)))
  }

  predicate FollowsAt(auth: nat -> bool, run: seq<Event>, s: State, i: nat)
    requires i < |s.requests|
  {
    && s.requests[i].authUrl == auth(i)
    && (s.requests[i].retry <==> i in StartsIn(auth, run).leaders)
    && PhaseOk(auth, i, s.requests[i].phase, LastOf(auth, run, i))
  }

  predicate Follows(auth: nat -> bool, run: seq<Event>, s: State) {
    && (s.isRefreshing <==> StartsIn(auth, run).underWay)
    && forall i :: 0 <= i < |s.requests| ==> FollowsAt(auth, run, s, i)
  }

  /** A response concerns the request it is for, and says who leads. */
  lemma FollowsRespond(auth: nat -> bool, run: seq<Event>, s: State, i: nat)
    requires run != [] && run[|run| - 1].Respond? && Enabled(s, run[|run| - 1]) && i < |s.requests|
    requires Follows(auth, run[..|run| - 1], s)
    ensures i < |Apply(s, run[|run| - 1]).requests| && FollowsAt(auth, run, Apply(s, run[|run| - 1]), i)
    ensures Apply(s, run[|run| - 1]).isRefreshing <==> StartsIn(auth, run).underWay
  {
    assert FollowsAt(auth, run[..|run| - 1], s, i) && FollowsAt(auth, run[..|run| - 1], s, run[|run| - 1].request);
  }

  /** The end of a refresh concerns its leader and the parked requests. */
  lemma FollowsRefreshed(auth: nat -> bool, run: seq<Event>, s: State, i: nat)
    requires run != [] && run[|run| - 1].Refreshed? && Enabled(s, run[|run| - 1]) && i < |s.requests|
    requires FlightInv(s) && ParkInv(s) && Follows(auth, run[..|run| - 1], s)
    ensures i < |Apply(s, run[|run| - 1]).requests| && FollowsAt(auth, run, Apply(s, run[|run| - 1]), i)
  {
    assert FollowsAt(auth, run[..|run| - 1], s, i);
    AfterRefresh(s, run[|run| - 1].call, run[|run| - 1].ok, i);
  }

  lemma FollowsStep(auth: nat -> bool, run: seq<Event>, s: State)
    requires run != [] && Enabled(s, run[|run| - 1]) && FlightInv(s) && ParkInv(s)
    requires Follows(auth, run[..|run| - 1], s)
    ensures Follows(auth, run, Apply(s, run[|run| - 1]))
  {
    var e := run[|run| - 1];
    SameRequests(s, e);
    if e.Respond? { FollowsRespond(auth, run, s, e.request); }
    forall i | 0 <= i < |s.requests| ensures FollowsAt(auth, run, Apply(s, e), i) {
      match e
      case Respond(_, _) => FollowsRespond(auth, run, s, i);
      case Refreshed(_, _) => FollowsRefreshed(auth, run, s, i);
      case Send(_) => assert FollowsAt(auth, run[..|run| - 1], s, i);
    }
  }

  lemma SameRequests(s: State, e: Event)
    requires Enabled(s, e)
    ensures |Apply(s, e).requests| == |s.requests|
  {
  }

  /** The state reached by all but the last event. */
  lemma {:induction false} SplitLast(s: State, run: seq<Event>)
    requires Feasible(s, run) && run != []
    ensures var front := run[..|run| - 1];
      && Feasible(s, front) && Enabled(Final(s, front), run[|run| - 1])
      && Final(s, run) == Apply(Final(s, front), run[|run| - 1])
    decreases |run|
  {
    if |run| > 1 {
      SplitLast(Apply(s, run[0]), run[1..]);
      assert run[1..][..|run| - 2] == run[..|run| - 1][1..];
    } else {
      assert run[1..] == [] && run[..0] == [];
    }
  }

  lemma {:induction false} FollowsAlong(s0: State, run: seq<Event>)
    requires IsInitial(s0) && Feasible(s0, run)
    ensures |Final(s0, run).requests| == |s0.requests| && Follows(AuthOf(s0), run, Final(s0, run))
    decreases |run|
  {
    if run != [] {
      var front := run[..|run| - 1];
      SplitLast(s0, run);
      FollowsAlong(s0, front);
      assert FlightInv(Final(s0, front)) && ParkInv(Final(s0, front)) by { Along(s0, front); }
      FollowsStep(AuthOf(s0), run, Final(s0, front));
      SameRequests(Final(s0, front), run[|run| - 1]);
    }
  }

  /**
    In every run a request is resolved exactly when its last response was a success, and rejected exactly when that was
    another error, or a 401 that was not acted on (of an authentication address, or after the request had led a
    refresh), or a 401 that was acted on and whose refresh has failed.
   */
  lemma AnsweredExactly(s0: State, run: seq<Event>, i: nat)
    requires IsInitial(s0) && Feasible(s0, run) && i < |s0.requests|
    ensures i < |Final(s0, run).requests| &&
      var q, last := Final(s0, run).requests[i], LastOf(AuthOf(s0), run, i);
      && (q.phase.Resolved? <==> last.answer == Some(Success))
      && (q.phase.Rejected? <==>
            || last.answer == Some(OtherError)
            || (last.answer == Some(Unauthorized)
                && (s0.requests[i].authUrl || last.hadLed || last.refresh == Some(false))))
  {
    FollowsAlong(s0, run);
    assert FollowsAt(AuthOf(s0), run, Final(s0, run), i);
  }
}
