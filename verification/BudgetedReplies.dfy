/**
 * Which replies end a call and how, by the reply's own fields: what counts as
 * an answer, a rate limit, a refusal or a failure, what is recorded and what
 * the shared limiter is told, for every turn that a call gets to.
 */
module BudgetedReplies {
  import opened Basics
  import opened LimiterState
  import opened BudgetedGet

  // ------------------------------------------------------------------- replies

  /** A 2xx response whose body is an envelope of code zero, without a denial or a rate-limit phrase. */
  predicate Answered(reply: Reply) {
    reply.Returned? && 200 <= reply.status < 300 && reply.body == Envelope(0, false, false)
  }

  /** A refused credential: 401 or 403 raised, or an envelope with such a code or with a denial phrase. */
  predicate Refused(reply: Reply) {
    || (reply.RaisedStatus? && (reply.status == 401 || reply.status == 403))
    || (reply.Returned? && 200 <= reply.status < 300 && reply.body.Envelope?
        && (reply.body.deniedPhrase || 10003 <= reply.body.retCode <= 10005))
  }

  /** A rate limit: 429 raised or returned, or an envelope of code 10006 or with a rate-limit phrase, unless it is a refusal. */
  predicate Throttled(reply: Reply) {
    || (reply.RaisedStatus? && reply.status == 429)
    || (reply.Returned? && reply.status == 429)
    || (reply.Returned? && 200 <= reply.status < 300 && reply.body.Envelope?
        && (reply.body.retCode == 10006 || reply.body.limitPhrase) && !Refused(reply))
  }

  /** The body of a 2xx response did not arrive in time. */
  predicate BodyTimesOut(reply: Reply) { reply.Returned? && 200 <= reply.status < 300 && reply.body == ReadTimesOut }

  /** What the caller gets to see of a reply that is no answer and may not be retried. */
  function FailureOf(reply: Reply): Failure {
    if Refused(reply) then AuthFailure
    else if reply == Unreachable then TransportFailure
    else if reply == Breaks then OtherFailure
    else if reply == Interrupted then Interruption
    else if BodyTimesOut(reply) then ReadTimeout
    else if reply.Returned? && 200 <= reply.status < 300 && reply.body == Unreadable then PayloadFailure
    else ApiFailure
  }

  function RecordOfReply(reply: Reply): Record {
    if Answered(reply) then RecordOk
    else if Throttled(reply) then RecordRateLimit
    else if reply == TimesOut then RecordTimeout
    else RecordError
  }

  function OutcomeOfReply(reply: Reply): Outcome {
    if Answered(reply) then OK
    else if Throttled(reply) then RATE_LIMIT
    else if reply == TimesOut || BodyTimesOut(reply) then TIMEOUT
    else if Refused(reply) then AUTH
    else ERROR
  }

  lemma ReplyByFields(reply: Reply)
    ensures var (record, ending) := Classify(reply);
            && record == (if reply == Interrupted then None else Some(RecordOfReply(reply)))
            && ending == (if Answered(reply) then Ends(Success)
                          else if Throttled(reply) then Ends(Limited)
                          else if reply == TimesOut then Ends(Timeout)
                          else Throws(FailureOf(reply)))
            && LimiterOutcome(ending) == OutcomeOfReply(reply)
  {
  }

  // --------------------------------------------------------- getting to a turn

  /** The part of a call from a turn it gets to: its result and its events are the call's. */
  lemma {:induction false} ReachedPart(s: Settings, r: Request, env: nat -> Turn, k: nat)
    requires Reaches(s, r, env, k)
    ensures k < Budget(s) && Call(s, r, env).result == From(s, r, env, k).result
    ensures forall e :: e in From(s, r, env, k).log ==> e in Call(s, r, env).log
    decreases k
  {
    hide Rest, From, Continues, PassesGate, Budget;
    if k == 0 {
      FromStart(s, r, env);
    } else {
      ReachedPart(s, r, env, k - 1);
      ReachedBudget(s, r, env, k - 1);
      FromTurn(s, r, env, k - 1);
      FromNext(s, r, env, k - 1);
    }
  }

  lemma FromStart(s: Settings, r: Request, env: nat -> Turn)
    ensures From(s, r, env, 0) == Call(s, r, env)
  {
    hide Rest;
  }

  lemma ReachedBudget(s: Settings, r: Request, env: nat -> Turn, k: nat)
    requires Continues(s, r, env, k)
    ensures k + 1 < Budget(s)
  {
    hide PassesGate, Transmits;
  }

  /** What the sender does in a turn that a call gets to. */
  function EventsOf(s: Settings, r: Request, env: nat -> Turn, k: nat): (seq<Event>, Step) {
    var deadline := Deadline(s, r);
    SendOnceSpec(env(k), k + 1, ReasonOf(LastReply(env, k)), Narrowed(s.timeout, deadline, env(k).gateClock), deadline,
                 LastReply(env, k))
  }

  lemma FromNext(s: Settings, r: Request, env: nat -> Turn, k: nat)
    requires k + 1 < Budget(s) && Continues(s, r, env, k)
    ensures From(s, r, env, k).log == EventsOf(s, r, env, k).0 + From(s, r, env, k + 1).log
  {
    TurnTried(s, r, env, k);
    var turn, deadline, last := env(k), Deadline(s, r), LastReply(env, k);
    SendOnceSteps(turn, k + 1, ReasonOf(last), Narrowed(s.timeout, deadline, turn.gateClock), deadline, last);
    hide Rest, Held, Transmits, SendOnceSpec, Deadline, Budget, RateLimitCap, Classify, Narrowed, ReasonOf;
  }

  lemma TurnTried(s: Settings, r: Request, env: nat -> Turn, k: nat)
    requires k < Budget(s) && PassesGate(s, r, env, k)
    ensures var t, limited := From(s, r, env, k), LimitedBefore(env, k);
            var (events, step) := EventsOf(s, r, env, k);
            if GoesOn(step, s, r, k + 1, limited) then
              var c := step.ending.class_;
              var rest := Rest(s, r, env, k + 1, CountLimited(limited, c), Some(c));
              t == Trace(events + rest.log, rest.result)
            else t == Trace(events, ResultOf(step, s, k + 1))
  {
    RestTried(s, r, env, k, LimitedBefore(env, k), LastReply(env, k));
    hide Rest, SendOnceSpec, Deadline, Held, Budget, RateLimitCap, GoesOn, ResultOf;
  }

  // ------------------------------------------------------- a turn that sends

  /** The events of a turn that sends, with the timeout, the record and the report written out. */
  lemma TransmittedEvents(turn: Turn, attempt: nat, reason: Reason, timeout: real, deadline: Option<real>, last: Option<Class>)
    requires Transmits(turn, deadline)
    ensures var (events, step) := SendOnceSpec(turn, attempt, reason, timeout, deadline, last);
            && step == Replied(Classify(turn.reply).1)
            && Sent(attempt, turn.sendClock, Narrowed(timeout, deadline, turn.sendClock)) in events
            && (turn.reply != Interrupted ==> Logged(attempt, RecordOfReply(turn.reply), reason) in events)
            && (turn.shared.Granted? ==> Reported(turn.shared.g, OutcomeOfReply(turn.reply)) in events)
  {
    ReplyByFields(turn.reply);
    hide Classify, RecordOfReply, OutcomeOfReply, LimiterOutcome, Narrowed;
  }

  /** Why the turn is made: it is the first, or the reply before was a rate limit or a timeout. */
  function WhyMade(env: nat -> Turn, k: nat): Reason {
    if k == 0 then First else if Throttled(env(k - 1).reply) then AfterRateLimit else AfterTimeout
  }

  lemma LastReplyByFields(s: Settings, r: Request, env: nat -> Turn, k: nat)
    requires Reaches(s, r, env, k)
    ensures ReasonOf(LastReply(env, k)) == WhyMade(env, k)
    ensures LastReply(env, k) == Some(Limited) <==> k > 0 && Throttled(env(k - 1).reply)
  {
    if k > 0 {
      ReplyByFields(env(k - 1).reply);
    }
    hide Classify, Throttled, PassesGate, Transmits;
  }

  /**
   * A turn that sends records its reply by class and reason, reports the
   * matching outcome if it holds a grant, and waits for the reply no longer
   * than configured and than both looks at the deadline left.
   */
  lemma SendingTurnTells(s: Settings, r: Request, env: nat -> Turn, k: nat)
    requires Reaches(s, r, env, k) && PassesGate(s, r, env, k) && Transmits(env(k), Deadline(s, r))
    ensures var log, turn, deadline := Call(s, r, env).log, env(k), Deadline(s, r);
            var timeout := if deadline.Some?
                           then RMin(RMin(s.timeout, deadline.value - turn.gateClock), deadline.value - turn.sendClock)
                           else s.timeout;
            && Sent(k + 1, turn.sendClock, timeout) in log
            && (turn.reply != Interrupted ==> Logged(k + 1, RecordOfReply(turn.reply), WhyMade(env, k)) in log)
            && (turn.shared.Granted? ==> Reported(turn.shared.g, OutcomeOfReply(turn.reply)) in log)
  {
    hide Call, From, Deadline, PassesGate, Transmits, Reaches, RecordOfReply, OutcomeOfReply, Throttled, SendOnceSpec;
    ReachedPart(s, r, env, k);
    TurnTried(s, r, env, k);
    LastReplyByFields(s, r, env, k);
    var deadline, last := Deadline(s, r), LastReply(env, k);
    TransmittedEvents(env(k), k + 1, ReasonOf(last), Narrowed(s.timeout, deadline, env(k).gateClock), deadline, last);
    assert forall e :: e in EventsOf(s, r, env, k).0 ==> e in From(s, r, env, k).log by {
      hide Rest, GoesOn, ResultOf, LimitedBefore, LastReply;
    }
  }

  /** The rate limits a class may meet before the next one ends the call. */
  function CapOf(s: Settings, p: Prio): int {
    Min(if p == P0 then 3 else if p == P3 then 1 else 2, Max(0, s.rateLimitRetries))
  }

  /** The rate limits among the first k replies. */
  function ThrottledBefore(env: nat -> Turn, k: nat): nat {
    if k == 0 then 0 else ThrottledBefore(env, k - 1) + if Throttled(env(k - 1).reply) then 1 else 0
  }

  lemma {:induction false} LimitsCounted(env: nat -> Turn, k: nat)
    ensures LimitedBefore(env, k) == ThrottledBefore(env, k)
    decreases k
  {
    if k > 0 {
      LimitsCounted(env, k - 1);
      ReplyByFields(env(k - 1).reply);
    }
    hide Classify, Throttled;
  }

  /**
   * How a turn that sends leaves the call. An answer, and nothing else, is
   * handed back; a refusal or another failure is raised as what it is; only a
   * timeout or a rate limit lets the call go on, as long as there are attempts
   * left and, for a rate limit, the class's cap is not used up.
   */
  lemma SendingTurnDecides(s: Settings, r: Request, env: nat -> Turn, k: nat)
    requires Reaches(s, r, env, k) && PassesGate(s, r, env, k) && Transmits(env(k), Deadline(s, r))
    ensures var result, reply := Call(s, r, env).result, env(k).reply;
            if Answered(reply) then result == Payload(k + 1)
            else if Throttled(reply) then
              if k + 1 >= Budget(s) then result == Failed(RateLimited(AttemptBudget))
              else if ThrottledBefore(env, k) >= CapOf(s, r.prio) then result == Failed(RateLimited(RetryCap))
              else Reaches(s, r, env, k + 1)
            else if reply == TimesOut then
              if k + 1 >= Budget(s) then result == Failed(TimedOut(AttemptBudget)) else Reaches(s, r, env, k + 1)
            else result == Failed(Thrown(FailureOf(reply)))
  {
    hide Call, From, Deadline, PassesGate, Transmits, Throttled, Answered, FailureOf, SendOnceSpec, Classify, Budget;
    ReachedPart(s, r, env, k);
    TurnTried(s, r, env, k);
    ReplyByFields(env(k).reply);
    LimitsCounted(env, k);
    CapByClass(s, r.prio);
    var deadline, last := Deadline(s, r), LastReply(env, k);
    TransmittedEvents(env(k), k + 1, ReasonOf(last), Narrowed(s.timeout, deadline, env(k).gateClock), deadline, last);
    hide RateLimitCap, CapOf, ThrottledBefore, LimitedBefore, LastReply, Rest, RecordOfReply, OutcomeOfReply;
  }

  lemma CapByClass(s: Settings, p: Prio)
    ensures RateLimitCap(s, p) == CapOf(s, p)
  {
  }

  // --------------------------------------------------- a turn that does not send

  /** The error of a call that was denied another send: it names the last reply. */
  function DeniedIn(env: nat -> Turn, k: nat, why: Denial): Error {
    if k > 0 && Throttled(env(k - 1).reply) then RateLimited(why) else TimedOut(why)
  }

  /**
   * Why a turn does not send, in the order in which it is looked at: deadline
   * and retry guard before a retry, the breaker gate, the deadline again, the
   * shared limiter, the deadline at the grant, the permission to send, and
   * the deadline at the send.
   */
  lemma SilentTurnEnds(s: Settings, r: Request, env: nat -> Turn, k: nat)
    requires Reaches(s, r, env, k) && !(PassesGate(s, r, env, k) && Transmits(env(k), Deadline(s, r)))
    ensures var turn, deadline, late := env(k), Deadline(s, r), DeniedIn(env, k, DeadlineExceeded);
            Call(s, r, env).result == Failed(
              if k > 0 && Expired(deadline, turn.retryClock) then late
              else if k > 0 && !turn.stormAllows then DeniedIn(env, k, StormGuard)
              else if !turn.gateOpen then Deferred
              else if Expired(deadline, turn.gateClock) then late
              else
                match turn.shared
                case BadFlag => BadConfiguration
                case Unavailable => LimiterUnavailable
                case Denied => LimiterDenied
                case Off => late
                case Granted(_, clock, prepare) =>
                  if Expired(deadline, clock) then late
                  else if prepare == PrepareFails then PrepareRaised
                  else if prepare == Revoked(true) then RevokeFailed
                  else if prepare == Revoked(false) then GrantRevoked
                  else late)
  {
    hide Call, From, Deadline, Throttled, SendOnceSpec, Reaches, Budget;
    ReachedPart(s, r, env, k);
    LastReplyByFields(s, r, env, k);
    if !PassesGate(s, r, env, k) {
      UnpassedEnds(s, r, env, k);
    } else {
      TurnTried(s, r, env, k);
      SilentSteps(env(k), k + 1, ReasonOf(LastReply(env, k)),
                  Narrowed(s.timeout, Deadline(s, r), env(k).gateClock), Deadline(s, r), LastReply(env, k));
      hide Rest;
    }
  }

  lemma UnpassedEnds(s: Settings, r: Request, env: nat -> Turn, k: nat)
    requires k < Budget(s) && !PassesGate(s, r, env, k)
    ensures var turn, deadline, last := env(k), Deadline(s, r), LastReply(env, k);
            From(s, r, env, k).result == Failed(
              if k > 0 && Expired(deadline, turn.retryClock) then Deny(last, DeadlineExceeded)
              else if k > 0 && !turn.stormAllows then Deny(last, StormGuard)
              else if !turn.gateOpen then Deferred
              else Deny(last, DeadlineExceeded))
  {
    hide SendOnceSpec, Deadline, Budget, LastReply, LimitedBefore;
  }

  lemma SilentSteps(turn: Turn, attempt: nat, reason: Reason, timeout: real, deadline: Option<real>, last: Option<Class>)
    requires !Transmits(turn, deadline)
    ensures var late := Deny(last, DeadlineExceeded);
            var (events, step) := SendOnceSpec(turn, attempt, reason, timeout, deadline, last);
            && step == Stopped(
                 match turn.shared
                 case BadFlag => BadConfiguration
                 case Unavailable => LimiterUnavailable
                 case Denied => LimiterDenied
                 case Off => late
                 case Granted(_, clock, prepare) =>
                   if Expired(deadline, clock) then late
                   else if prepare == PrepareFails then PrepareRaised
                   else if prepare == Revoked(true) then RevokeFailed
                   else if prepare == Revoked(false) then GrantRevoked
                   else late)
            && (turn.shared.Granted? && (Expired(deadline, turn.shared.clock) || turn.shared.prepare != PrepareFails) ==>
                  var given := !Expired(deadline, turn.shared.clock) && turn.shared.prepare.Revoked?;
                  Reported(turn.shared.g, if given then REVOKED else NOT_SENT) in events)
  {
    hide Classify, LimiterOutcome;
  }

  /** A grant that no send follows is given back as not sent, or as revoked when the permission to send was denied. */
  lemma SilentTurnGivesBack(s: Settings, r: Request, env: nat -> Turn, k: nat)
    requires Reaches(s, r, env, k) && PassesGate(s, r, env, k) && !Transmits(env(k), Deadline(s, r))
    requires env(k).shared.Granted?
    requires Expired(Deadline(s, r), env(k).shared.clock) || env(k).shared.prepare != PrepareFails
    ensures var given := !Expired(Deadline(s, r), env(k).shared.clock) && env(k).shared.prepare.Revoked?;
            Reported(env(k).shared.g, if given then REVOKED else NOT_SENT) in Call(s, r, env).log
  {
    hide Call, From, Deadline, SendOnceSpec, Reaches, PassesGate, Transmits, Budget, Expired;
    ReachedPart(s, r, env, k);
    TurnTried(s, r, env, k);
    SilentSteps(env(k), k + 1, ReasonOf(LastReply(env, k)),
                Narrowed(s.timeout, Deadline(s, r), env(k).gateClock), Deadline(s, r), LastReply(env, k));
    hide Rest;
  }

  // ------------------------------------------------------------ what is returned

  lemma {:induction false} LastTurn(s: Settings, r: Request, env: nat -> Turn, k: nat) returns (j: nat)
    requires Reaches(s, r, env, k) && k < Budget(s)
    ensures Reaches(s, r, env, j) && !Reaches(s, r, env, j + 1)
    decreases Budget(s) - k
  {
    if Reaches(s, r, env, k + 1) {
      ReachedPart(s, r, env, k + 1);
      j := LastTurn(s, r, env, k + 1);
    } else {
      j := k;
    }
  }

  /**
   * A payload is handed back exactly for an answer: the call returns that of
   * attempt k if and only if it gets to that turn, sends in it, and the reply
   * is a 2xx response with code zero and neither phrase.
   */
  lemma PayloadIsAnAnswer(s: Settings, r: Request, env: nat -> Turn, k: nat)
    requires k > 0
    ensures Call(s, r, env).result == Payload(k) <==>
            && Reaches(s, r, env, k - 1) && PassesGate(s, r, env, k - 1) && Transmits(env(k - 1), Deadline(s, r))
            && env(k - 1).reply.Returned? && 200 <= env(k - 1).reply.status < 300
            && env(k - 1).reply.body == Envelope(0, false, false)
  {
    hide Call, PassesGate, Transmits, Deadline, Throttled, FailureOf, Budget, DeniedIn, Expired, ThrottledBefore, CapOf;
    if Call(s, r, env).result == Payload(k) {
      SomeBudget(s);
      var j := LastTurn(s, r, env, 0);
      hide Reaches;
      if PassesGate(s, r, env, j) && Transmits(env(j), Deadline(s, r)) {
        SendingTurnDecides(s, r, env, j);
      } else {
        SilentTurnEnds(s, r, env, j);
      }
    } else if Reaches(s, r, env, k - 1) && PassesGate(s, r, env, k - 1) && Transmits(env(k - 1), Deadline(s, r)) {
      SendingTurnDecides(s, r, env, k - 1);
    }
  }

  lemma SomeBudget(s: Settings)
    ensures Budget(s) > 0
  {
  }
}
