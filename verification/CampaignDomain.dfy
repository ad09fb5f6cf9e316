/** The dialer service's vocabulary and its three pure decision rules. */
module CampaignDomain {
  /** Contact identifiers are only ever compared for equality; numbers stand for the UUID strings. */
  type ContactId = nat

  /** How often `id` occurs in `s`. */
  function Count(s: seq<ContactId>, id: ContactId): nat {
    if s == [] then 0 else (if s[0] == id then 1 else 0) + Count(s[1..], id)
  }

  lemma {:induction false} CountConcat(s: seq<ContactId>, t: seq<ContactId>, id: ContactId)
    ensures Count(s + t, id) == Count(s, id) + Count(t, id)
  {
    if s == [] {
      assert s + t == t;
    } else {
      assert (s + t)[1..] == s[1..] + t;
      CountConcat(s[1..], t, id);
    }
  }

  lemma {:induction false} CountPositive(s: seq<ContactId>, id: ContactId)
    ensures Count(s, id) > 0 <==> id in s
  {
    if s != [] { CountPositive(s[1..], id); }
  }

  datatype CampaignStatus = Draft | Running | Paused | Completed | Stopped

  datatype ContactStatus = Pending | InDialing | Answered | NoAnswer | Busy | Failed | Dnc

  /** A contact's stored row; the call duration and timestamps are not modelled. */
  datatype ContactRow = ContactRow(status: ContactStatus, attempts: int)

  datatype Counter = CountDialed | CountAnswered | CountFailed | CountBusy | CountNoAnswer

  /** The five counters kept both in memory and in the campaign's database row. */
  datatype Counters = Counters(dialed: int, answered: int, failed: int, busy: int, noAnswer: int) {
    function At(k: Counter): int {
      match k
      case CountDialed => dialed
      case CountAnswered => answered
      case CountFailed => failed
      case CountBusy => busy
      case CountNoAnswer => noAnswer
    }

    function Plus(d: Counters): Counters {
      Counters(dialed + d.dialed, answered + d.answered, failed + d.failed, busy + d.busy, noAnswer + d.noAnswer)
    }

    /** Attempts that were counted as dialed but fell into none of the four outcome columns. */
    function Uncategorised(): int {
      dialed - (answered + failed + busy + noAnswer)
    }
  }

  const ZERO_COUNTERS := Counters(0, 0, 0, 0, 0)

  datatype Progress = Progress(counters: Counters, remaining: int)

  datatype Campaign = Campaign(concurrency: int, retryMax: int, totalContacts: int, counters: Counters)

  /** NewWorkerPool's clamp of the configured concurrency. */
  function Capacity(concurrency: int): (n: nat)
    ensures 1 <= n <= 10
    ensures 1 <= concurrency <= 10 ==> n == concurrency
    ensures concurrency < 1 ==> n == 1
    ensures concurrency > 10 ==> n == 10
  {
    if concurrency < 1 then 1 else if concurrency > 10 then 10 else concurrency
  }

  /** What one finished dial adds to the counters; a do-not-call skip counts as failed. */
  function Delta(status: ContactStatus): Counters {
    match status
    case Answered => Counters(1, 1, 0, 0, 0)
    case Failed | Dnc => Counters(1, 0, 1, 0, 0)
    case Busy => Counters(1, 0, 0, 1, 0)
    case NoAnswer => Counters(1, 0, 0, 0, 1)
    case Pending | InDialing => Counters(1, 0, 0, 0, 0)
  }

  predicate ShouldRetry(status: ContactStatus, attempts: int, retryMax: int) {
    retryMax > 0 && (status == NoAnswer || status == Busy) && attempts < retryMax + 1
  }

  /** True when the lifecycle table has an edge; writing the current status again is allowed. */
  predicate ValidTransition(current: CampaignStatus, next: CampaignStatus) {
    || current == next
    || match current
       case Draft => next == Running
       case Running => next == Paused || next == Completed || next == Stopped
       case Paused => next == Running || next == Stopped
       case Completed | Stopped => false
  }

  const TABLE := {(Draft, Running), (Running, Paused), (Running, Completed), (Running, Stopped), (Paused, Running),
                  (Paused, Stopped)}

  /** The edges of the lifecycle table are these six and no others. */
  lemma TableExactly(current: CampaignStatus, next: CampaignStatus)
    ensures ValidTransition(current, next) <==> current == next || (current, next) in TABLE
  {
  }

  function LowerChar(c: char): char {
    if 'A' <= c <= 'Z' then (c as int + 32) as char else c
  }

  function Lower(s: string): string {
    seq(|s|, i requires 0 <= i < |s| => LowerChar(s[i]))
  }

  /** Lower case is taken letter by letter: the capitals become the small letters, all else stays. */
  lemma LowerMeans(s: string, t: string, c: char)
    ensures Lower("ABCDEFGHIJKLMNOPQRSTUVWXYZ") == "abcdefghijklmnopqrstuvwxyz"
    ensures !('A' <= c <= 'Z') ==> Lower([c]) == [c]
    ensures Lower(s + t) == Lower(s) + Lower(t)
  {
  }

  /** The outcome behind a status text in lower case. */
  function OutcomeOf(t: string): ContactStatus {
    if t == "completed" || t == "answered" || t == "in-progress" then Answered
    else if t == "no-answer" then NoAnswer
    else if t == "busy" then Busy
    else Failed
  }

  /** Maps a provider's call status text to an outcome that has a counter of its own. */
  function ClassifyOutcome(text: string): (status: ContactStatus)
    ensures status in {Answered, Failed, Busy, NoAnswer} && Delta(status).Uncategorised() == 0
  {
    OutcomeOf(Lower(text))
  }

  /** Which lower-case texts stand for which outcome; any other text stands for a failure. */
  predicate StandsFor(t: string, outcome: ContactStatus) {
    && (outcome == Busy <==> t == "busy")
    && (outcome == NoAnswer <==> t == "no-answer")
    && (outcome == Answered <==> t == "completed" || t == "answered" || t == "in-progress")
    && (outcome == Failed <==>
          t != "busy" && t != "no-answer" && t != "completed" && t != "answered" && t != "in-progress")
  }

  lemma OutcomeTexts(t: string)
    ensures StandsFor(t, OutcomeOf(t))
  {
    assert |"busy"| == 4 && |"no-answer"| == 9 && |"completed"| == 9 && |"answered"| == 8 && |"in-progress"| == 11;
    assert "no-answer"[0] == 'n' && "completed"[0] == 'c';
  }

  lemma ClassifiedTexts(text: string)
    ensures StandsFor(Lower(text), ClassifyOutcome(text))
  {
    OutcomeTexts(Lower(text));
  }

  /** A first attempt is retried exactly when the provider's text says busy or no answer, in any case. */
  lemma RetriedTexts(text: string, retryMax: int)
    ensures ShouldRetry(ClassifyOutcome(text), 1, retryMax)
            <==> retryMax > 0 && (Lower(text) == "busy" || Lower(text) == "no-answer")
  {
    OutcomeTexts(Lower(text));
  }
}
