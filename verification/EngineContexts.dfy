/**
  The context that Stop cancels, and runs in which it is respected.  A queue or a database that honours the context
  refuses a call that begins on a cancelled one, as the Redis and Postgres clients do; the in-memory queue does not.
 */
module EngineContexts {
  import opened CampaignDomain
  import opened DialEngine
  import opened EngineWitnesses

  /** The operations that are given the pool's context: the others have one of their own that is never cancelled. */
  predicate UsesContext(s: State, e: Event) {
    match e
    case Dispatch(_) => s.loc.Popping? || s.loc.SavingCompletion? || s.loc.CachingCompletion? || s.loc.Announcing?
    case Dial(i, _) =>
      i < |s.workers|
      && s.workers[i].stage in {Fetching, Screening, Skipping, Marking, Calling, Recording, Deciding}
    case _ => false
  }

  predicate IsRefused(e: Event) {
    match e
    case Dispatch(r) => !r.ok
    case Dial(_, r) => !r.ok && !r.yes && r.outcome.None?
    case _ => true
  }

  /** What is known of the answers in a run. */
  datatype Discipline =
    | AnyReplies         // nothing
    | ContextHonoured    // an operation on a cancelled context fails
    | OnlyContextFails   // that, and nothing else

  predicate Fits(d: Discipline, s: State, e: Event) {
    match d
    case AnyReplies => true
    case ContextHonoured => s.cancelled && UsesContext(s, e) ==> IsRefused(e)
    case OnlyContextFails => if s.cancelled && UsesContext(s, e) then IsRefused(e) else Succeeds(e)
  }

  predicate Keeps(c: Campaign, s: State, run: seq<Event>, d: Discipline)
    requires Feasible(c, s, run)
    decreases |run|
  {
    run == [] || (Fits(d, s, run[0]) && Keeps(c, Apply(c, s, run[0]), run[1..], d))
  }

  lemma {:induction false} KeepsOn(c: Campaign, s: State, run: seq<Event>, e: Event, d: Discipline)
    requires Feasible(c, s, run) && Keeps(c, s, run, d)
    requires Enabled(c, Final(c, s, run), e) && Fits(d, Final(c, s, run), e)
    ensures Feasible(c, s, run + [e]) && Keeps(c, s, run + [e], d)
    decreases |run|
  {
    Append(c, s, run, e);
    if run == [] {
      assert run + [e] == [e] && [e][1..] == [];
    } else {
      assert (run + [e])[1..] == run[1..] + [e];
      KeepsOn(c, Apply(c, s, run[0]), run[1..], e, d);
    }
  }

  predicate OnlyIssues(run: seq<Event>, allowed: set<Command>) {
    forall k :: 0 <= k < |run| && run[k].Issue? ==> run[k].command in allowed
  }

  const ALL_COMMANDS := {Pause, Resume, Stop}

  /** `t` can follow `s` while no commands but those in `allowed` arrive and the answers keep to `d`. */
  ghost predicate Leads(c: Campaign, s: State, t: State, allowed: set<Command>, d: Discipline) {
    exists run ::
      Feasible(c, s, run) && Final(c, s, run) == t && OnlyIssues(run, allowed) && Keeps(c, s, run, d)
  }

  lemma LeadsHere(c: Campaign, s: State, allowed: set<Command>, d: Discipline)
    ensures Leads(c, s, s, allowed, d)
  {
    assert Feasible(c, s, []) && Final(c, s, []) == s && OnlyIssues([], allowed) && Keeps(c, s, [], d);
  }

  lemma LeadsOn(c: Campaign, s: State, t: State, e: Event, allowed: set<Command>, d: Discipline)
    requires Leads(c, s, t, allowed, d) && Enabled(c, t, e) && (e.Issue? ==> e.command in allowed) && Fits(d, t, e)
    ensures Leads(c, s, Apply(c, t, e), allowed, d)
  {
    var run :| Feasible(c, s, run) && Final(c, s, run) == t && OnlyIssues(run, allowed) && Keeps(c, s, run, d);
    Append(c, s, run, e);
    KeepsOn(c, s, run, e, d);
    assert OnlyIssues(run + [e], allowed);
  }

  /** A run without failures in which no Stop arrives keeps to any of the disciplines. */
  lemma {:induction false} CalmRunKeeps(c: Campaign, s: State, run: seq<Event>, d: Discipline)
    requires Feasible(c, s, run) && AllSucceed(run) && NoStop(run) && !s.cancelled
    ensures Keeps(c, s, run, d)
    decreases |run|
  {
    if run != [] {
      assert run[0] != Issue(Stop) && Succeeds(run[0]);
      CalmRunKeeps(c, Apply(c, s, run[0]), run[1..], d);
    }
  }

  lemma CalmlyLeads(c: Campaign, s: State, t: State, d: Discipline)
    requires Calmly(c, s, t) && !s.cancelled
    ensures Leads(c, s, t, ALL_COMMANDS, d)
  {
    var run: seq<Event> :| Feasible(c, s, run) && Final(c, s, run) == t && AllSucceed(run) && NoStop(run);
    CalmRunKeeps(c, s, run, d);
    forall k | 0 <= k < |run| && run[k].Issue? ensures run[k].command in ALL_COMMANDS {
      match run[k].command
      case Pause => case Resume => case Stop =>
    }
  }
}
