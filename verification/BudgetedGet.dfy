/**
 * One budgeted GET: a single loop over attempts with an attempt budget, a cap
 * on rate-limit retries, one absolute deadline, one telemetry record for each
 * send, and one result reported for each grant of the shared limiter.
 */
module BudgetedGet {
  import opened Basics
  import opened LimiterState

  // ------------------------------------------------------------ configuration

  const HARD_MAX_ATTEMPTS := 3

  datatype Settings = Settings(maxAttempts: int, rateLimitRetries: int, timeout: real, deadline: real)

  /** A call: its class, the clock reading at entry, and the caller's own relative and absolute deadlines. */
  datatype Request = Request(prio: Prio, entry: real, relative: Option<real>, absolute: Option<real>)

  function Budget(s: Settings): (n: nat)
    ensures 1 <= n <= 3
    ensures if s.maxAttempts < 1 then n == 1 else if s.maxAttempts > 3 then n == 3 else n == s.maxAttempts
  {
    Max(1, Min(s.maxAttempts, HARD_MAX_ATTEMPTS))
  }

  function ClassCap(p: Prio): nat {
    match p
    case P0 => 3
    case P1 => 2
    case P2 => 2
    case P3 => 1
  }

  function RateLimitCap(s: Settings, p: Prio): nat { Min(ClassCap(p), Max(0, s.rateLimitRetries)) }

  function Earlier(a: Option<real>, b: Option<real>): Option<real> {
    match (a, b)
    case (None, _) => b
    case (_, None) => a
    case (Some(x), Some(y)) => Some(RMin(x, y))
  }

  /** The absolute deadline, fixed from the clock reading at entry. */
  function Deadline(s: Settings, r: Request): Option<real> {
    var own := if s.deadline > 0.0 then Some(r.entry + s.deadline) else None;
    var relative := match r.relative { case None => None case Some(d) => Some(r.entry + RMax(0.0, d)) };
    Earlier(Earlier(own, r.absolute), relative)
  }

  predicate Expired(deadline: Option<real>, clock: real) { deadline.Some? && clock >= deadline.value }

  // -------------------------------------------------------------- environment

  /** A response body; the two flags say that the message holds a denial or a rate-limit phrase. */
  datatype Body =
    | ReadTimesOut
    | Unreadable
    | NotAnObject
    | NoRetCode
    | Envelope(retCode: int, deniedPhrase: bool, limitPhrase: bool)

  datatype Reply =
    | TimesOut
    | RaisedStatus(status: int)
    | Unreachable
    | Breaks
    | Interrupted
    | Returned(status: int, body: Body)

  datatype PrepareAnswer = Ready | Revoked(recordFails: bool) | PrepareFails

  /** The shared limiter during one attempt. */
  datatype Shared =
    | Off
    | BadFlag
    | Unavailable
    | Denied
    | Granted(g: Gid, clock: real, prepare: PrepareAnswer)

  /** What one turn of the loop meets: clock readings, retry guard, breaker gate, shared limiter and reply. */
  datatype Turn = Turn(
    retryClock: real,
    stormAllows: bool,
    gateOpen: bool,
    gateClock: real,
    shared: Shared,
    sendClock: real,
    reply: Reply)

  // ----------------------------------------------------------- what is observed

  datatype Reason = First | AfterTimeout | AfterRateLimit

  datatype Record = RecordOk | RecordRateLimit | RecordTimeout | RecordError | RecordSkip

  datatype Event =
    | Acquired(g: Gid)
    | Prepared(g: Gid, allowed: bool)
    | Sent(attempt: nat, clock: real, timeout: real)
    | Logged(attempt: nat, record: Record, reason: Reason)
    | Reported(g: Gid, outcome: Outcome)

  datatype Class = Success | Timeout | Limited

  datatype Failure = AuthFailure | ApiFailure | TransportFailure | PayloadFailure | ReadTimeout | OtherFailure | Interruption

  datatype Denial = DeadlineExceeded | StormGuard | AttemptBudget | RetryCap

  datatype Error =
    | RateLimited(why: Denial)
    | TimedOut(why: Denial)
    | Deferred
    | BadConfiguration
    | LimiterUnavailable
    | LimiterDenied
    | GrantRevoked
    | RevokeFailed
    | PrepareRaised
    | Thrown(failure: Failure)

  datatype Result = Payload(attempt: nat) | Failed(error: Error)

  // ---------------------------------------------------------- classifying a reply

  predicate AccessDenied(retCode: int, deniedPhrase: bool) { deniedPhrase || retCode in {10003, 10004, 10005} }

  /** How one reply is recorded, and how it ends: a class, or an exception. */
  datatype Ending = Ends(class_: Class) | Throws(failure: Failure)

  function Classify(reply: Reply): (Option<Record>, Ending) {
    match reply
    case TimesOut => (Some(RecordTimeout), Ends(Timeout))
    case RaisedStatus(status) =>
      if status == 429 then (Some(RecordRateLimit), Ends(Limited))
      else if status == 401 || status == 403 then (Some(RecordError), Throws(AuthFailure))
      else (Some(RecordError), Throws(ApiFailure))
    case Unreachable => (Some(RecordError), Throws(TransportFailure))
    case Breaks => (Some(RecordError), Throws(OtherFailure))
    case Interrupted => (None, Throws(Interruption))
    case Returned(status, body) =>
      if status == 429 then (Some(RecordRateLimit), Ends(Limited))
      else if !(200 <= status < 300) then (Some(RecordError), Throws(ApiFailure))
      else
        match body
        case ReadTimesOut => (Some(RecordError), Throws(ReadTimeout))
        case Unreadable => (Some(RecordError), Throws(PayloadFailure))
        case NotAnObject => (Some(RecordError), Throws(ApiFailure))
        case NoRetCode => (Some(RecordError), Throws(ApiFailure))
        case Envelope(code, denied, limit) =>
          if AccessDenied(code, denied) then (Some(RecordError), Throws(AuthFailure))
          else if code == 10006 || limit then (Some(RecordRateLimit), Ends(Limited))
          else if code != 0 then (Some(RecordError), Throws(ApiFailure))
          else (Some(RecordOk), Ends(Success))
  }

  /** The outcome reported to the shared limiter. */
  function LimiterOutcome(e: Ending): Outcome {
    match e
    case Ends(Success) => OK
    case Ends(Limited) => RATE_LIMIT
    case Ends(Timeout) => TIMEOUT
    case Throws(AuthFailure) => AUTH
    case Throws(ReadTimeout) => TIMEOUT
    case Throws(_) => ERROR
  }

  // --------------------------------------------------------------- one attempt

  /** What one call of the sender decides: an ending of the reply, or an error before anything was sent. */
  datatype Step = Replied(ending: Ending) | Stopped(error: Error)

  function Deny(last: Option<Class>, why: Denial): Error {
    if last == Some(Limited) then RateLimited(why) else TimedOut(why)
  }

  function Report(grant: Option<Gid>, o: Outcome): seq<Event> {
    match grant
    case None => []
    case Some(g) => [Reported(g, o)]
  }

  function Narrowed(timeout: real, deadline: Option<real>, clock: real): real {
    match deadline
    case None => timeout
    case Some(d) => RMin(timeout, d - clock)
  }

  /** The part behind the limiter gate: the last look at the deadline, the send and its record. */
  function Transmit(turn: Turn, grant: Option<Gid>, attempt: nat, reason: Reason, timeout: real,
                    deadline: Option<real>, last: Option<Class>): (seq<Event>, Step)
  {
    if Expired(deadline, turn.sendClock) then
      (Report(grant, NOT_SENT) + [Logged(attempt, RecordSkip, reason)], Stopped(Deny(last, DeadlineExceeded)))
    else
      var (record, ending) := Classify(turn.reply);
      var logged := match record { case None => [] case Some(r) => [Logged(attempt, r, reason)] };
      ([Sent(attempt, turn.sendClock, Narrowed(timeout, deadline, turn.sendClock))] + logged +
       Report(grant, LimiterOutcome(ending)), Replied(ending))
  }

  function SendOnceSpec(turn: Turn, attempt: nat, reason: Reason, timeout: real,
                        deadline: Option<real>, last: Option<Class>): (seq<Event>, Step)
  {
    var skip := [Logged(attempt, RecordSkip, reason)];
    match turn.shared
    case Off => Transmit(turn, None, attempt, reason, timeout, deadline, last)
    case BadFlag => ([], Stopped(BadConfiguration))
    case Unavailable => (skip, Stopped(LimiterUnavailable))
    case Denied => (skip, Stopped(LimiterDenied))
    case Granted(g, clock, prepare) =>
      if Expired(deadline, clock) then
        ([Acquired(g)] + [Reported(g, NOT_SENT)] + skip, Stopped(Deny(last, DeadlineExceeded)))
      else
        match prepare
        case PrepareFails => ([Acquired(g)], Stopped(PrepareRaised))
        case Revoked(fails) =>
          ([Acquired(g)] + [Prepared(g, false)] + [Reported(g, REVOKED)] + if fails then [] else skip,
           Stopped(if fails then RevokeFailed else GrantRevoked))
        case Ready =>
          var (events, step) := Transmit(turn, Some(g), attempt, reason, timeout, deadline, last);
          ([Acquired(g)] + [Prepared(g, true)] + events, step)
  }

  method AttemptOnce(reply: Reply, attempt: nat, reason: Reason) returns (log: seq<Event>, ending: Ending)
    ensures ending == Classify(reply).1
    ensures log == match Classify(reply).0 { case None => [] case Some(r) => [Logged(attempt, r, reason)] }
  {
    log := [];
    match reply {
      case TimesOut =>
        log := log + [Logged(attempt, RecordTimeout, reason)];
        return log, Ends(Timeout);
      case RaisedStatus(status) =>
        if status == 429 {
          log := log + [Logged(attempt, RecordRateLimit, reason)];
          return log, Ends(Limited);
        }
        log := log + [Logged(attempt, RecordError, reason)];
        return log, Throws(if status == 401 || status == 403 then AuthFailure else ApiFailure);
      case Unreachable =>
        log := log + [Logged(attempt, RecordError, reason)];
        return log, Throws(TransportFailure);
      case Breaks =>
        log := log + [Logged(attempt, RecordError, reason)];
        return log, Throws(OtherFailure);
      case Interrupted =>
        return log, Throws(Interruption);
      case Returned(status, body) =>
        if status == 429 {
          log := log + [Logged(attempt, RecordRateLimit, reason)];
          return log, Ends(Limited);
        }
        if !(200 <= status < 300) {
          log := log + [Logged(attempt, RecordError, reason)];
          return log, Throws(ApiFailure);
        }
        match body {
          case ReadTimesOut =>
            log := log + [Logged(attempt, RecordError, reason)];
            ending := Throws(ReadTimeout);
          case Unreadable =>
            log := log + [Logged(attempt, RecordError, reason)];
            ending := Throws(PayloadFailure);
          case NotAnObject =>
            log := log + [Logged(attempt, RecordError, reason)];
            ending := Throws(ApiFailure);
          case NoRetCode =>
            log := log + [Logged(attempt, RecordError, reason)];
            ending := Throws(ApiFailure);
          case Envelope(code, denied, limit) =>
            if AccessDenied(code, denied) {
              log := log + [Logged(attempt, RecordError, reason)];
              ending := Throws(AuthFailure);
            } else if code == 10006 || limit {
              log := log + [Logged(attempt, RecordRateLimit, reason)];
              ending := Ends(Limited);
            } else if code == 0 {
              log := log + [Logged(attempt, RecordOk, reason)];
              ending := Ends(Success);
            } else {
              log := log + [Logged(attempt, RecordError, reason)];
              ending := Throws(ApiFailure);
            }
        }
    }
  }

  method SendOnce(turn: Turn, attempt: nat, reason: Reason, timeout: real,
                  deadline: Option<real>, last: Option<Class>)
    returns (log: seq<Event>, step: Step)
    ensures log == SendOnceSpec(turn, attempt, reason, timeout, deadline, last).0
    ensures step == SendOnceSpec(turn, attempt, reason, timeout, deadline, last).1
  {
    hide Transmit, Deny, Expired;
    log := [];
    var grant: Option<Gid> := None;
    match turn.shared {
      case Off =>
      case BadFlag => return log, Stopped(BadConfiguration);
      case Unavailable => return [Logged(attempt, RecordSkip, reason)], Stopped(LimiterUnavailable);
      case Denied => return [Logged(attempt, RecordSkip, reason)], Stopped(LimiterDenied);
      case Granted(g, clock, prepare) =>
        grant := Some(g);
        log := [Acquired(g)];
        if Expired(deadline, clock) {
          log := log + [Reported(g, NOT_SENT)] + [Logged(attempt, RecordSkip, reason)];
          return log, Stopped(Deny(last, DeadlineExceeded));
        }
        if prepare == PrepareFails {
          return log, Stopped(PrepareRaised);
        }
        log := log + [Prepared(g, prepare.Ready?)];
        if prepare.Revoked? {
          log := log + [Reported(g, REVOKED)];
          if prepare.recordFails {
            assert log + [] == log;
            return log, Stopped(RevokeFailed);
          }
          return log + [Logged(attempt, RecordSkip, reason)], Stopped(GrantRevoked);
        }
    }
    var sent, ended := SendNow(turn, grant, attempt, reason, timeout, deadline, last);
    log := log + sent;
    step := ended;
  }

  /** Past the gate: the last look at the deadline, the send itself, and its report on every exit. */
  method SendNow(turn: Turn, grant: Option<Gid>, attempt: nat, reason: Reason, timeout: real,
                 deadline: Option<real>, last: Option<Class>)
    returns (log: seq<Event>, step: Step)
    ensures log == Transmit(turn, grant, attempt, reason, timeout, deadline, last).0
    ensures step == Transmit(turn, grant, attempt, reason, timeout, deadline, last).1
  {
    hide Classify, LimiterOutcome, Report, Narrowed, Deny;
    if Expired(deadline, turn.sendClock) {
      log := Report(grant, NOT_SENT) + [Logged(attempt, RecordSkip, reason)];
      return log, Stopped(Deny(last, DeadlineExceeded));
    }
    log := [Sent(attempt, turn.sendClock, Narrowed(timeout, deadline, turn.sendClock))];
    var logged, ending := AttemptOnce(turn.reply, attempt, reason);
    log := log + logged + Report(grant, LimiterOutcome(ending));
    step := Replied(ending);
  }

  // ------------------------------------------------------------------ the loop

  function ReasonOf(last: Option<Class>): Reason {
    match last
    case None => First
    case Some(Limited) => AfterRateLimit
    case Some(_) => AfterTimeout
  }

  datatype Trace = Trace(log: seq<Event>, result: Result)

  /** The rest of a call after some attempts, the last of which ended with a retryable class. */
  function Rest(s: Settings, r: Request, env: nat -> Turn, attempts: nat, limited: nat, last: Option<Class>): Trace
    requires attempts < Budget(s)
    decreases Budget(s) - attempts
  {
    var turn, attempt, deadline := env(attempts), attempts + 1, Deadline(s, r);
    var reason := ReasonOf(last);
    if attempt > 1 && Expired(deadline, turn.retryClock) then Trace([], Failed(Deny(last, DeadlineExceeded)))
    else if attempt > 1 && !turn.stormAllows then Trace([], Failed(Deny(last, StormGuard)))
    else if !turn.gateOpen then Trace([], Failed(Deferred))
    else if Expired(deadline, turn.gateClock) then
      Trace([Logged(attempt, RecordSkip, reason)], Failed(Deny(last, DeadlineExceeded)))
    else
      var (events, step) :=
        SendOnceSpec(turn, attempt, reason, Narrowed(s.timeout, deadline, turn.gateClock), deadline, last);
      match step
      case Stopped(e) => Trace(events, Failed(e))
      case Replied(Throws(f)) => Trace(events, Failed(Thrown(f)))
      case Replied(Ends(Success)) => Trace(events, Payload(attempt))
      case Replied(Ends(c)) =>
        if attempt >= Budget(s) then Trace(events, Failed(Deny(Some(c), AttemptBudget)))
        else if c == Limited && limited >= RateLimitCap(s, r.prio) then Trace(events, Failed(Deny(Some(c), RetryCap)))
        else
          var rest := Rest(s, r, env, attempt, if c == Limited then limited + 1 else limited, Some(c));
          Trace(events + rest.log, rest.result)
  }

  function Call(s: Settings, r: Request, env: nat -> Turn): Trace { Rest(s, r, env, 0, 0, None) }

  /** One turn of the rest of a call. */
  lemma RestTurn(s: Settings, r: Request, env: nat -> Turn, attempts: nat, limited: nat, last: Option<Class>)
    requires attempts < Budget(s)
    ensures var turn, attempt, deadline := env(attempts), attempts + 1, Deadline(s, r);
            Rest(s, r, env, attempts, limited, last) ==
            if attempt > 1 && Expired(deadline, turn.retryClock) then Trace([], Failed(Deny(last, DeadlineExceeded)))
            else if attempt > 1 && !turn.stormAllows then Trace([], Failed(Deny(last, StormGuard)))
            else if !turn.gateOpen then Trace([], Failed(Deferred))
            else if Expired(deadline, turn.gateClock) then
              Trace([Logged(attempt, RecordSkip, ReasonOf(last))], Failed(Deny(last, DeadlineExceeded)))
            else
              var (events, step) := SendOnceSpec(turn, attempt, ReasonOf(last),
                                                 Narrowed(s.timeout, deadline, turn.gateClock), deadline, last);
              match step
              case Stopped(e) => Trace(events, Failed(e))
              case Replied(Throws(f)) => Trace(events, Failed(Thrown(f)))
              case Replied(Ends(Success)) => Trace(events, Payload(attempt))
              case Replied(Ends(c)) =>
                if attempt >= Budget(s) then Trace(events, Failed(Deny(Some(c), AttemptBudget)))
                else if c == Limited && limited >= RateLimitCap(s, r.prio) then
                  Trace(events, Failed(Deny(Some(c), RetryCap)))
                else
                  var rest := Rest(s, r, env, attempt, if c == Limited then limited + 1 else limited, Some(c));
                  Trace(events + rest.log, rest.result)
  {
    hide SendOnceSpec, Deadline, Expired, Narrowed, RateLimitCap, Budget, ReasonOf, Deny;
  }

  lemma Associate<T>(a: seq<T>, b: seq<T>, c: seq<T>)
    ensures a + (b + c) == a + b + c
  {
  }

  method BudgetedGet(s: Settings, r: Request, env: nat -> Turn) returns (log: seq<Event>, result: Result)
    ensures Trace(log, result) == Call(s, r, env)
  {
    hide SendOnceSpec, Deadline, Expired, Narrowed, RateLimitCap, Budget, ReasonOf, Deny, Rest;
    var deadline, budget, cap := Deadline(s, r), Budget(s), RateLimitCap(s, r.prio);
    var attempt, limited: nat, last: Option<Class> := 0, 0, None;
    log := [];
    while true
      invariant attempt < budget
      invariant Call(s, r, env).log == log + Rest(s, r, env, attempt, limited, last).log
      invariant Call(s, r, env).result == Rest(s, r, env, attempt, limited, last).result
      decreases budget - attempt
    {
      var turn := env(attempt);
      RestTurn(s, r, env, attempt, limited, last);
      attempt := attempt + 1;
      var retry := attempt > 1;
      var reason := ReasonOf(last);
      if retry {
        if Expired(deadline, turn.retryClock) {
          return log, Failed(Deny(last, DeadlineExceeded));
        }
        if !turn.stormAllows {
          return log, Failed(Deny(last, StormGuard));
        }
      }
      if !turn.gateOpen {
        return log, Failed(Deferred);
      }
      if Expired(deadline, turn.gateClock) {
        return log + [Logged(attempt, RecordSkip, reason)], Failed(Deny(last, DeadlineExceeded));
      }
      var timeout := Narrowed(s.timeout, deadline, turn.gateClock);
      var events, step := SendOnce(turn, attempt, reason, timeout, deadline, last);
      ghost var before := log;
      log := log + events;
      match step {
        case Stopped(e) => return log, Failed(e);
        case Replied(Throws(f)) => return log, Failed(Thrown(f));
        case Replied(Ends(c)) =>
          if c == Success {
            return log, Payload(attempt);
          }
          last := Some(c);
          if attempt >= budget {
            return log, Failed(Deny(last, AttemptBudget));
          }
          if c == Limited && limited >= cap {
            return log, Failed(Deny(last, RetryCap));
          }
          if c == Limited {
            limited := limited + 1;
          }
          Associate(before, events, Rest(s, r, env, attempt, limited, last).log);
      }
    }
  }

  // -------------------------------------------------------- reading off a trace

  /** The values f reads off the events, in order. */
  function Select<T>(log: seq<Event>, f: Event -> Option<T>): seq<T> {
    if log == [] then [] else One(log[0], f) + Select(log[1..], f)
  }

  function One<T>(e: Event, f: Event -> Option<T>): seq<T> {
    match f(e)
    case None => []
    case Some(v) => [v]
  }

  lemma {:induction false} SelectJoin<T>(a: seq<Event>, b: seq<Event>, f: Event -> Option<T>)
    ensures Select(a + b, f) == Select(a, f) + Select(b, f)
    decreases |a|
  {
    if a == [] {
      assert a + b == b;
    } else {
      hide Select;
      SelectJoin(a[1..], b, f);
      SelectJoinFirst(a[0], a[1..], b, f);
      assert [a[0]] + a[1..] == a;
    }
  }

  lemma SelectJoinFirst<T>(e: Event, a: seq<Event>, b: seq<Event>, f: Event -> Option<T>)
    requires Select(a + b, f) == Select(a, f) + Select(b, f)
    ensures Select([e] + a + b, f) == Select([e] + a, f) + Select(b, f)
  {
    hide Select, One;
    SelectFirst(e, a, f);
    SelectFirst(e, a + b, f);
    assert [e] + a + b == [e] + (a + b);
    assert One(e, f) + (Select(a, f) + Select(b, f)) == One(e, f) + Select(a, f) + Select(b, f);
  }

  lemma SelectFirst<T>(e: Event, rest: seq<Event>, f: Event -> Option<T>)
    ensures Select([e] + rest, f) == One(e, f) + Select(rest, f)
  {
    hide One;
    assert ([e] + rest)[1..] == rest;
  }

  lemma SelectOne<T>(e: Event, f: Event -> Option<T>)
    ensures Select([e], f) == One(e, f)
  {
    assert Select([e][1..], f) == [];
  }

  lemma SelectTwo<T>(a: Event, b: Event, rest: seq<Event>, f: Event -> Option<T>)
    ensures Select([a] + [b] + rest, f) == One(a, f) + One(b, f) + Select(rest, f)
  {
    SelectJoin([a] + [b], rest, f);
    SelectJoin([a], [b], f);
    SelectOne(a, f);
    SelectOne(b, f);
  }

  function SentAttempt(e: Event): Option<nat> { if e.Sent? then Some(e.attempt) else None }

  /** The attempt of a telemetry record that stands for a send. */
  function RecordedAttempt(e: Event): Option<nat> {
    if e.Logged? && e.record != RecordSkip then Some(e.attempt) else None
  }

  function LimitedAttempt(e: Event): Option<nat> {
    if e.Logged? && e.record == RecordRateLimit then Some(e.attempt) else None
  }

  function GrantOf(e: Event): Option<Gid> { if e.Acquired? then Some(e.g) else None }

  function ReportOf(e: Event): Option<Gid> { if e.Reported? then Some(e.g) else None }

  function RecordOf(e: Event): Option<(Record, Reason)> { if e.Logged? then Some((e.record, e.reason)) else None }

  function Sends(log: seq<Event>): seq<nat> { Select(log, SentAttempt) }

  function Records(log: seq<Event>): seq<nat> { Select(log, RecordedAttempt) }

  function Limits(log: seq<Event>): seq<nat> { Select(log, LimitedAttempt) }

  function Grants(log: seq<Event>): seq<Gid> { Select(log, GrantOf) }

  function Reports(log: seq<Event>): seq<Gid> { Select(log, ReportOf) }

  function History(log: seq<Event>): seq<(Record, Reason)> { Select(log, RecordOf) }

  /** A send leaves before the deadline and its timeout fits into what remains. */
  predicate Timely(e: Event, deadline: Option<real>, timeout: real) {
    e.Sent? ==>
      && e.timeout <= timeout
      && (deadline.Some? ==> e.clock < deadline.value && e.clock + e.timeout <= deadline.value)
  }

  predicate AllTimely(log: seq<Event>, deadline: Option<real>, timeout: real) {
    forall e :: e in log ==> Timely(e, deadline, timeout)
  }

  // ---------------------------------------------------------- one attempt's trace

  function Count<T>(b: bool, v: T): seq<T> { if b then [v] else [] }

  /** The events that follow the limiter gate, read off one by one. */
  lemma TransmitSelect<T>(turn: Turn, grant: Option<Gid>, attempt: nat, reason: Reason, timeout: real,
                          deadline: Option<real>, last: Option<Class>, f: Event -> Option<T>)
    ensures var (events, step) := Transmit(turn, grant, attempt, reason, timeout, deadline, last);
            var (record, ending) := Classify(turn.reply);
            Select(events, f) ==
            if Expired(deadline, turn.sendClock) then
              Select(Report(grant, NOT_SENT), f) + One(Logged(attempt, RecordSkip, reason), f)
            else
              One(Sent(attempt, turn.sendClock, Narrowed(timeout, deadline, turn.sendClock)), f) +
              (if record.Some? then One(Logged(attempt, record.value, reason), f) else []) +
              Select(Report(grant, LimiterOutcome(ending)), f)
  {
    hide Classify, LimiterOutcome, Narrowed, One;
    var skip := Logged(attempt, RecordSkip, reason);
    if Expired(deadline, turn.sendClock) {
      SelectJoin(Report(grant, NOT_SENT), [skip], f);
      SelectOne(skip, f);
    } else {
      var (record, ending) := Classify(turn.reply);
      var sent := Sent(attempt, turn.sendClock, Narrowed(timeout, deadline, turn.sendClock));
      var logged := match record { case None => [] case Some(r) => [Logged(attempt, r, reason)] };
      SelectJoin([sent] + logged, Report(grant, LimiterOutcome(ending)), f);
      SelectJoin([sent], logged, f);
      SelectOne(sent, f);
      if record.Some? {
        SelectOne(Logged(attempt, record.value, reason), f);
      }
    }
  }

  lemma SelectReport<T>(grant: Option<Gid>, o: Outcome, f: Event -> Option<T>)
    ensures Select(Report(grant, o), f) == match grant { case None => [] case Some(g) => One(Reported(g, o), f) }
  {
    if grant.Some? {
      SelectOne(Reported(grant.value, o), f);
    }
  }

  function RecordFor(c: Class): Record {
    match c
    case Success => RecordOk
    case Timeout => RecordTimeout
    case Limited => RecordRateLimit
  }

  /** A reply is recorded by its class; an exception as an error, unless the process is being interrupted. */
  lemma ClassifyRecords(reply: Reply)
    ensures var (record, ending) := Classify(reply);
            match ending
            case Ends(c) => record == Some(RecordFor(c))
            case Throws(f) => record == if f == Interruption then None else Some(RecordError)
  {
  }

  predicate Interrupts(step: Step) { step == Replied(Throws(Interruption)) }

  /** What one attempt leaves in the record: its class, an error, a skip, or nothing. */
  predicate HistoryFits(h: seq<(Record, Reason)>, step: Step, reason: Reason) {
    match step
    case Replied(Ends(c)) => h == [(RecordFor(c), reason)]
    case _ => h == [] || (|h| == 1 && h[0].1 == reason && h[0].0 in {RecordSkip, RecordError})
  }

  lemma TransmitAccounts(turn: Turn, grant: Option<Gid>, attempt: nat, reason: Reason, timeout: real,
                         deadline: Option<real>, last: Option<Class>)
    ensures var (events, step) := Transmit(turn, grant, attempt, reason, timeout, deadline, last);
            && Sends(events) == Count(step.Replied?, attempt)
            && Records(events) == Count(step.Replied? && !Interrupts(step), attempt)
            && Limits(events) == Count(step == Replied(Ends(Limited)), attempt)
            && Grants(events) == []
            && Reports(events) == match grant { case None => [] case Some(g) => [g] }
            && HistoryFits(History(events), step, reason)
            && step != Stopped(PrepareRaised)
  {
    TransmitSelect(turn, grant, attempt, reason, timeout, deadline, last, SentAttempt);
    TransmitSelect(turn, grant, attempt, reason, timeout, deadline, last, RecordedAttempt);
    TransmitSelect(turn, grant, attempt, reason, timeout, deadline, last, LimitedAttempt);
    TransmitSelect(turn, grant, attempt, reason, timeout, deadline, last, GrantOf);
    TransmitSelect(turn, grant, attempt, reason, timeout, deadline, last, ReportOf);
    TransmitSelect(turn, grant, attempt, reason, timeout, deadline, last, RecordOf);
    ReportsSelect(grant, NOT_SENT);
    ReportsSelect(grant, LimiterOutcome(Classify(turn.reply).1));
    ClassifyRecords(turn.reply);
    hide Classify, LimiterOutcome, Report, Select;
  }

  lemma ReportsSelect(grant: Option<Gid>, o: Outcome)
    ensures Sends(Report(grant, o)) == [] && Records(Report(grant, o)) == [] && Limits(Report(grant, o)) == []
    ensures Grants(Report(grant, o)) == [] && History(Report(grant, o)) == []
    ensures Reports(Report(grant, o)) == match grant { case None => [] case Some(g) => [g] }
  {
    SelectReport(grant, o, SentAttempt);
    SelectReport(grant, o, RecordedAttempt);
    SelectReport(grant, o, LimitedAttempt);
    SelectReport(grant, o, GrantOf);
    SelectReport(grant, o, ReportOf);
    SelectReport(grant, o, RecordOf);
  }

  /** A grant is reported once, whatever happened, unless asking to send raised an exception. */
  predicate Accounted(events: seq<Event>, raised: bool) {
    if raised then |Grants(events)| == |Reports(events)| + 1 && Reports(events) <= Grants(events)
    else Reports(events) == Grants(events)
  }

  /** What the events of one attempt say, by how the attempt ended. */
  predicate Accounts(events: seq<Event>, step: Step, attempt: nat, reason: Reason) {
    && Sends(events) == Count(step.Replied?, attempt)
    && Records(events) == Count(step.Replied? && !Interrupts(step), attempt)
    && Limits(events) == Count(step == Replied(Ends(Limited)), attempt)
    && Accounted(events, step == Stopped(PrepareRaised))
    && HistoryFits(History(events), step, reason)
  }

  /** Giving a grant back, and saying so unless the limiter cannot be told. */
  function GivenBack(g: Gid, skip: Event, fails: bool): seq<Event> {
    [Reported(g, REVOKED)] + if fails then [] else [skip]
  }

  lemma GivenBackSelect(g: Gid, attempt: nat, reason: Reason, fails: bool)
    ensures var tail := GivenBack(g, Logged(attempt, RecordSkip, reason), fails);
            && Sends(tail) == [] && Records(tail) == [] && Limits(tail) == [] && Grants(tail) == []
            && Reports(tail) == [g] && History(tail) == if fails then [] else [(RecordSkip, reason)]
  {
    var skip := Logged(attempt, RecordSkip, reason);
    AllOne(Reported(g, REVOKED));
    AllNone();
    AllTwo(Reported(g, REVOKED), skip, []);
    hide Sends, Records, Limits, Grants, Reports, History;
    assert [Reported(g, REVOKED)] + [] == [Reported(g, REVOKED)];
    assert [Reported(g, REVOKED)] + [skip] + [] == [Reported(g, REVOKED)] + [skip];
  }

  lemma RevokedAccounts(g: Gid, attempt: nat, reason: Reason, fails: bool)
    ensures var skip := Logged(attempt, RecordSkip, reason);
            Accounts([Acquired(g)] + [Prepared(g, false)] + [Reported(g, REVOKED)] + (if fails then [] else [skip]),
                     Stopped(if fails then RevokeFailed else GrantRevoked), attempt, reason)
  {
    var skip := Logged(attempt, RecordSkip, reason);
    var tail := GivenBack(g, skip, fails);
    assert [Acquired(g)] + [Prepared(g, false)] + [Reported(g, REVOKED)] + (if fails then [] else [skip]) ==
           [Acquired(g)] + [Prepared(g, false)] + tail;
    hide Sends, Records, Limits, Grants, Reports, History, GivenBack;
    GivenBackSelect(g, attempt, reason, fails);
    AllTwo(Acquired(g), Prepared(g, false), tail);
  }

  lemma ExpiredAccounts(g: Gid, attempt: nat, reason: Reason, why: Error)
    requires why != PrepareRaised
    ensures Accounts([Acquired(g)] + [Reported(g, NOT_SENT)] + [Logged(attempt, RecordSkip, reason)],
                     Stopped(why), attempt, reason)
  {
    hide Sends, Records, Limits, Grants, Reports, History;
    var skip := Logged(attempt, RecordSkip, reason);
    AllTwo(Acquired(g), Reported(g, NOT_SENT), [skip]);
    AllOne(skip);
  }

  lemma SendOnceAccounts(turn: Turn, attempt: nat, reason: Reason, timeout: real,
                         deadline: Option<real>, last: Option<Class>)
    ensures var (events, step) := SendOnceSpec(turn, attempt, reason, timeout, deadline, last);
            Accounts(events, step, attempt, reason)
  {
    if turn.shared.Granted? {
      GrantedAccounts(turn, attempt, reason, timeout, deadline, last);
    } else {
      UngrantedAccounts(turn, attempt, reason, timeout, deadline, last);
    }
    hide SendOnceSpec, Accounts;
  }

  lemma UngrantedAccounts(turn: Turn, attempt: nat, reason: Reason, timeout: real,
                          deadline: Option<real>, last: Option<Class>)
    requires !turn.shared.Granted?
    ensures var (events, step) := SendOnceSpec(turn, attempt, reason, timeout, deadline, last);
            Accounts(events, step, attempt, reason)
  {
    hide Sends, Records, Limits, Grants, Reports, History, Transmit, Expired;
    AllNone();
    AllOne(Logged(attempt, RecordSkip, reason));
    TransmitAccounts(turn, None, attempt, reason, timeout, deadline, last);
  }

  lemma GrantedAccounts(turn: Turn, attempt: nat, reason: Reason, timeout: real,
                        deadline: Option<real>, last: Option<Class>)
    requires turn.shared.Granted?
    ensures var (events, step) := SendOnceSpec(turn, attempt, reason, timeout, deadline, last);
            Accounts(events, step, attempt, reason)
  {
    hide Accounts, Transmit, Expired;
    var g := turn.shared.g;
    if Expired(deadline, turn.shared.clock) {
      ExpiredAccounts(g, attempt, reason, Deny(last, DeadlineExceeded));
    } else {
      match turn.shared.prepare
      case PrepareFails => RaisedAccounts(g, attempt, reason);
      case Revoked(fails) => RevokedAccounts(g, attempt, reason, fails);
      case Ready => PermittedAccounts(turn, g, attempt, reason, timeout, deadline, last);
    }
  }

  lemma RaisedAccounts(g: Gid, attempt: nat, reason: Reason)
    ensures Accounts([Acquired(g)], Stopped(PrepareRaised), attempt, reason)
  {
    hide Sends, Records, Limits, Grants, Reports, History;
    AllOne(Acquired(g));
  }

  lemma PermittedAccounts(turn: Turn, g: Gid, attempt: nat, reason: Reason, timeout: real,
                          deadline: Option<real>, last: Option<Class>)
    ensures var (events, step) := Transmit(turn, Some(g), attempt, reason, timeout, deadline, last);
            Accounts([Acquired(g)] + [Prepared(g, true)] + events, step, attempt, reason)
  {
    hide Sends, Records, Limits, Grants, Reports, History, Transmit;
    TransmitAccounts(turn, Some(g), attempt, reason, timeout, deadline, last);
    AllTwo(Acquired(g), Prepared(g, true), Transmit(turn, Some(g), attempt, reason, timeout, deadline, last).0);
  }

  lemma AllNone()
    ensures Sends([]) == [] && Records([]) == [] && Limits([]) == [] && Grants([]) == []
    ensures Reports([]) == [] && History([]) == []
  {
  }

  lemma AllOne(e: Event)
    ensures Sends([e]) == One(e, SentAttempt) && Records([e]) == One(e, RecordedAttempt)
    ensures Limits([e]) == One(e, LimitedAttempt) && Grants([e]) == One(e, GrantOf)
    ensures Reports([e]) == One(e, ReportOf) && History([e]) == One(e, RecordOf)
  {
    SelectOne(e, SentAttempt);
    SelectOne(e, RecordedAttempt);
    SelectOne(e, LimitedAttempt);
    SelectOne(e, GrantOf);
    SelectOne(e, ReportOf);
    SelectOne(e, RecordOf);
  }

  lemma AllTwo(a: Event, b: Event, rest: seq<Event>)
    ensures var log := [a] + [b] + rest;
            && Sends(log) == One(a, SentAttempt) + One(b, SentAttempt) + Sends(rest)
            && Records(log) == One(a, RecordedAttempt) + One(b, RecordedAttempt) + Records(rest)
            && Limits(log) == One(a, LimitedAttempt) + One(b, LimitedAttempt) + Limits(rest)
            && Grants(log) == One(a, GrantOf) + One(b, GrantOf) + Grants(rest)
            && Reports(log) == One(a, ReportOf) + One(b, ReportOf) + Reports(rest)
            && History(log) == One(a, RecordOf) + One(b, RecordOf) + History(rest)
  {
    SelectTwo(a, b, rest, SentAttempt);
    SelectTwo(a, b, rest, RecordedAttempt);
    SelectTwo(a, b, rest, LimitedAttempt);
    SelectTwo(a, b, rest, GrantOf);
    SelectTwo(a, b, rest, ReportOf);
    SelectTwo(a, b, rest, RecordOf);
  }

  lemma TransmitTimely(turn: Turn, grant: Option<Gid>, attempt: nat, reason: Reason, timeout: real,
                       deadline: Option<real>, last: Option<Class>)
    ensures AllTimely(Transmit(turn, grant, attempt, reason, timeout, deadline, last).0, deadline, timeout)
  {
    hide Classify, LimiterOutcome;
  }

  lemma SendOnceTimely(turn: Turn, attempt: nat, reason: Reason, timeout: real,
                       deadline: Option<real>, last: Option<Class>)
    ensures AllTimely(SendOnceSpec(turn, attempt, reason, timeout, deadline, last).0, deadline, timeout)
  {
    hide Transmit;
    match turn.shared
    case Off => TransmitTimely(turn, None, attempt, reason, timeout, deadline, last);
    case Granted(g, clock, prepare) => TransmitTimely(turn, Some(g), attempt, reason, timeout, deadline, last);
    case _ =>
  }

  // ----------------------------------------------------------------- the whole call

  /** An attempt follows another only after a timeout or a rate limit, and says which in its record. */
  predicate Chained(h: seq<(Record, Reason)>, reason: Reason) {
    h == [] ||
    (h[0].1 == reason &&
     (|h| == 1 || (h[0].0 == RecordRateLimit && Chained(h[1..], AfterRateLimit))
               || (h[0].0 == RecordTimeout && Chained(h[1..], AfterTimeout))))
  }

  /** Attempts are numbered one by one. */
  predicate Numbered(sends: seq<nat>, first: nat) { forall i :: 0 <= i < |sends| ==> sends[i] == first + i }

  predicate Facts(t: Trace, attempt: nat, attemptsLeft: nat, limitsLeft: nat, reason: Reason) {
    && Numbered(Sends(t.log), attempt)
    && |Sends(t.log)| <= attemptsLeft
    && Records(t.log) <= Sends(t.log)
    && |Sends(t.log)| == |Records(t.log)| + (if t.result == Failed(Thrown(Interruption)) then 1 else 0)
    && |Limits(t.log)| <= limitsLeft
    && Accounted(t.log, t.result == Failed(PrepareRaised))
    && Chained(History(t.log), reason)
    && (t.result.Payload? <==> exists i :: 0 <= i < |History(t.log)| && History(t.log)[i].0 == RecordOk)
  }

  lemma AllJoin(a: seq<Event>, b: seq<Event>)
    ensures Sends(a + b) == Sends(a) + Sends(b) && Records(a + b) == Records(a) + Records(b)
    ensures Limits(a + b) == Limits(a) + Limits(b) && Grants(a + b) == Grants(a) + Grants(b)
    ensures Reports(a + b) == Reports(a) + Reports(b) && History(a + b) == History(a) + History(b)
  {
    SelectJoin(a, b, SentAttempt);
    SelectJoin(a, b, RecordedAttempt);
    SelectJoin(a, b, LimitedAttempt);
    SelectJoin(a, b, GrantOf);
    SelectJoin(a, b, ReportOf);
    SelectJoin(a, b, RecordOf);
  }

  lemma FactsOfNothing(e: Error, attempt: nat, attemptsLeft: nat, limitsLeft: nat, reason: Reason)
    requires e != PrepareRaised && e != Thrown(Interruption)
    ensures Facts(Trace([], Failed(e)), attempt, attemptsLeft, limitsLeft, reason)
  {
    AllNone();
    hide Sends, Records, Limits, Grants, Reports, History;
  }

  /** The last attempt: nothing follows. */
  lemma FactsOfLast(events: seq<Event>, step: Step, result: Result, attempt: nat, left: nat, limitsLeft: nat, reason: Reason)
    requires Accounts(events, step, attempt, reason) && left > 0
    requires step == Replied(Ends(Limited)) ==> limitsLeft > 0
    requires result == Failed(Thrown(Interruption)) <==> Interrupts(step)
    requires result == Failed(PrepareRaised) <==> step == Stopped(PrepareRaised)
    requires result.Payload? <==> step == Replied(Ends(Success))
    ensures Facts(Trace(events, result), attempt, left, limitsLeft, reason)
  {
    hide Sends, Records, Limits, Grants, Reports, History;
    if result.Payload? {
      assert History(events)[0].0 == RecordOk;
    }
  }

  /** An attempt that is followed by others. */
  lemma FactsOfRetry(events: seq<Event>, c: Class, rest: Trace, attempt: nat, left: nat, limitsLeft: nat, reason: Reason)
    requires c != Success && left > 0 && (c == Limited ==> limitsLeft > 0)
    requires Accounts(events, Replied(Ends(c)), attempt, reason)
    requires Facts(rest, attempt + 1, left - 1, if c == Limited then limitsLeft - 1 else limitsLeft, ReasonOf(Some(c)))
    ensures Facts(Trace(events + rest.log, rest.result), attempt, left, limitsLeft, reason)
  {
    AllJoin(events, rest.log);
    hide Sends, Records, Limits, Grants, Reports, History;
    var h, g := History(events + rest.log), History(rest.log);
    assert h == [(RecordFor(c), reason)] + g;
    assert h[1..] == g;
    if i :| 0 <= i < |g| && g[i].0 == RecordOk {
      assert h[i + 1].0 == RecordOk;
    }
    if i :| 0 <= i < |h| && h[i].0 == RecordOk {
      assert g[i - 1].0 == RecordOk;
    }
  }

  /** No attempt is made at all in this turn. */
  predicate Held(turn: Turn, attempt: nat, deadline: Option<real>) {
    (attempt > 1 && (Expired(deadline, turn.retryClock) || !turn.stormAllows)) || !turn.gateOpen
  }

  /** The call goes on after an attempt. */
  predicate GoesOn(step: Step, s: Settings, r: Request, attempt: nat, limited: nat) {
    && step.Replied? && step.ending.Ends? && step.ending.class_ != Success
    && attempt < Budget(s)
    && !(step.ending.class_ == Limited && limited >= RateLimitCap(s, r.prio))
  }

  function CountLimited(limited: nat, c: Class): nat { if c == Limited then limited + 1 else limited }

  lemma RestHeld(s: Settings, r: Request, env: nat -> Turn, attempts: nat, limited: nat, last: Option<Class>)
    requires attempts < Budget(s)
    requires Held(env(attempts), attempts + 1, Deadline(s, r))
    ensures var t := Rest(s, r, env, attempts, limited, last);
            t.log == [] && t.result.Failed? && t.result.error != PrepareRaised && !t.result.error.Thrown?
  {
    hide SendOnceSpec, Deadline;
  }

  lemma RestSkipped(s: Settings, r: Request, env: nat -> Turn, attempts: nat, limited: nat, last: Option<Class>)
    requires attempts < Budget(s)
    requires !Held(env(attempts), attempts + 1, Deadline(s, r)) && Expired(Deadline(s, r), env(attempts).gateClock)
    ensures Rest(s, r, env, attempts, limited, last) ==
            Trace([Logged(attempts + 1, RecordSkip, ReasonOf(last))], Failed(Deny(last, DeadlineExceeded)))
  {
    hide SendOnceSpec, Deadline;
  }

  lemma RestTried(s: Settings, r: Request, env: nat -> Turn, attempts: nat, limited: nat, last: Option<Class>)
    requires attempts < Budget(s)
    requires !Held(env(attempts), attempts + 1, Deadline(s, r)) && !Expired(Deadline(s, r), env(attempts).gateClock)
    ensures var t, turn, deadline := Rest(s, r, env, attempts, limited, last), env(attempts), Deadline(s, r);
            var (events, step) := SendOnceSpec(turn, attempts + 1, ReasonOf(last),
                                               Narrowed(s.timeout, deadline, turn.gateClock), deadline, last);
            if GoesOn(step, s, r, attempts + 1, limited) then
              var c := step.ending.class_;
              var rest := Rest(s, r, env, attempts + 1, CountLimited(limited, c), Some(c));
              t == Trace(events + rest.log, rest.result)
            else
              t == Trace(events, ResultOf(step, s, attempts + 1))
  {
    hide SendOnceSpec, Deadline, Budget, RateLimitCap;
  }

  /** How the call ends with an attempt that nothing follows. */
  function ResultOf(step: Step, s: Settings, attempt: nat): Result {
    match step
    case Stopped(e) => Failed(e)
    case Replied(Throws(f)) => Failed(Thrown(f))
    case Replied(Ends(Success)) => Payload(attempt)
    case Replied(Ends(c)) => Failed(Deny(Some(c), if attempt >= Budget(s) then AttemptBudget else RetryCap))
  }

  /** The result of a last attempt fits the way the attempt ended. */
  lemma ResultFits(step: Step, s: Settings, attempt: nat)
    requires step.Stopped? ==> !step.error.Thrown?
    ensures var result := ResultOf(step, s, attempt);
            && (result == Failed(Thrown(Interruption)) <==> Interrupts(step))
            && (result == Failed(PrepareRaised) <==> step == Stopped(PrepareRaised))
            && (result.Payload? <==> step == Replied(Ends(Success)))
  {
    hide Budget;
  }

  lemma {:induction false} RestFacts(s: Settings, r: Request, env: nat -> Turn, attempts: nat, limited: nat, last: Option<Class>)
    requires attempts < Budget(s) && limited <= RateLimitCap(s, r.prio)
    ensures Facts(Rest(s, r, env, attempts, limited, last), attempts + 1, Budget(s) - attempts,
                  RateLimitCap(s, r.prio) + 1 - limited, ReasonOf(last))
    decreases Budget(s) - attempts
  {
    var turn, attempt, deadline := env(attempts), attempts + 1, Deadline(s, r);
    var reason, left, limitsLeft := ReasonOf(last), Budget(s) - attempts, RateLimitCap(s, r.prio) + 1 - limited;
    var t := Rest(s, r, env, attempts, limited, last);
    hide Rest, Facts, Accounts, Deadline, SendOnceSpec, RateLimitCap, Budget, Held, ReasonOf;
    if Held(turn, attempt, deadline) {
      RestHeld(s, r, env, attempts, limited, last);
      FactsOfNothing(t.result.error, attempt, left, limitsLeft, reason);
    } else if Expired(deadline, turn.gateClock) {
      RestSkipped(s, r, env, attempts, limited, last);
      SkipAccounts(attempt, reason, t.result.error);
      FactsOfLast(t.log, Stopped(t.result.error), t.result, attempt, left, limitsLeft, reason);
    } else {
      TriedFacts(s, r, env, attempts, limited, last);
    }
  }

  lemma {:induction false} TriedFacts(s: Settings, r: Request, env: nat -> Turn, attempts: nat, limited: nat, last: Option<Class>)
    requires attempts < Budget(s) && limited <= RateLimitCap(s, r.prio)
    requires !Held(env(attempts), attempts + 1, Deadline(s, r)) && !Expired(Deadline(s, r), env(attempts).gateClock)
    ensures Facts(Rest(s, r, env, attempts, limited, last), attempts + 1, Budget(s) - attempts,
                  RateLimitCap(s, r.prio) + 1 - limited, ReasonOf(last))
    decreases Budget(s) - attempts, 0
  {
    hide Rest, Facts, Accounts, Deadline, SendOnceSpec, RateLimitCap, Budget, Held, ResultOf, ReasonOf;
    var turn, attempt, deadline := env(attempts), attempts + 1, Deadline(s, r);
    var reason, left, limitsLeft := ReasonOf(last), Budget(s) - attempts, RateLimitCap(s, r.prio) + 1 - limited;
    var timeout := Narrowed(s.timeout, deadline, turn.gateClock);
    var (events, step) := SendOnceSpec(turn, attempt, reason, timeout, deadline, last);
    RestTried(s, r, env, attempts, limited, last);
    SendOnceAccounts(turn, attempt, reason, timeout, deadline, last);
    if GoesOn(step, s, r, attempt, limited) {
      var c := step.ending.class_;
      var rest := Rest(s, r, env, attempt, CountLimited(limited, c), Some(c));
      RestFacts(s, r, env, attempt, CountLimited(limited, c), Some(c));
      FactsOfRetry(events, c, rest, attempt, left, limitsLeft, reason);
    } else {
      StopsProperly(turn, attempt, reason, timeout, deadline, last);
      ResultFits(step, s, attempt);
      FactsOfLast(events, step, ResultOf(step, s, attempt), attempt, left, limitsLeft, reason);
    }
  }

  lemma SkipAccounts(attempt: nat, reason: Reason, e: Error)
    requires e != PrepareRaised
    ensures Accounts([Logged(attempt, RecordSkip, reason)], Stopped(e), attempt, reason)
  {
    AllOne(Logged(attempt, RecordSkip, reason));
    hide Sends, Records, Limits, Grants, Reports, History;
  }

  /** An attempt stopped before its send never ends with an exception of the send. */
  lemma StopsProperly(turn: Turn, attempt: nat, reason: Reason, timeout: real, deadline: Option<real>, last: Option<Class>)
    ensures var step := SendOnceSpec(turn, attempt, reason, timeout, deadline, last).1;
            step.Stopped? ==> !step.error.Thrown?
  {
    hide Classify;
  }

  lemma CallFacts(s: Settings, r: Request, env: nat -> Turn)
    ensures Facts(Call(s, r, env), 1, Budget(s), RateLimitCap(s, r.prio) + 1, First)
  {
    hide Facts, Rest;
    RestFacts(s, r, env, 0, 0, None);
  }

  /** Whatever happens, a call sends no more than its budget, and meets no more rate limits than its cap and one. */
  lemma AttemptsAreBudgeted(s: Settings, r: Request, env: nat -> Turn)
    ensures var log := Call(s, r, env).log;
            && |Sends(log)| <= Budget(s) <= 3
            && |Limits(log)| <= RateLimitCap(s, r.prio) + 1
            && Numbered(Sends(log), 1)
  {
    hide Sends, Limits, Records, Grants, Reports, History, Call;
    CallFacts(s, r, env);
  }

  /** Only a timeout or a rate limit leads to another attempt, whose records say which it was; a payload means a recorded success. */
  lemma RetriesFollowTheirCause(s: Settings, r: Request, env: nat -> Turn)
    ensures var t := Call(s, r, env);
            && Chained(History(t.log), First)
            && (t.result.Payload? <==> exists i :: 0 <= i < |History(t.log)| && History(t.log)[i].0 == RecordOk)
  {
    hide Sends, Limits, Records, Grants, Reports, History, Call;
    CallFacts(s, r, env);
  }

  lemma {:induction false} RestIsTimely(s: Settings, r: Request, env: nat -> Turn, attempts: nat, limited: nat, last: Option<Class>)
    requires attempts < Budget(s)
    ensures AllTimely(Rest(s, r, env, attempts, limited, last).log, Deadline(s, r), s.timeout)
    decreases Budget(s) - attempts
  {
    var turn, attempt, deadline := env(attempts), attempts + 1, Deadline(s, r);
    if Held(turn, attempt, deadline) {
      RestHeld(s, r, env, attempts, limited, last);
    } else if Expired(deadline, turn.gateClock) {
      RestSkipped(s, r, env, attempts, limited, last);
    } else {
      var timeout := Narrowed(s.timeout, deadline, turn.gateClock);
      var (events, step) := SendOnceSpec(turn, attempt, ReasonOf(last), timeout, deadline, last);
      RestTried(s, r, env, attempts, limited, last);
      SendOnceTimely(turn, attempt, ReasonOf(last), timeout, deadline, last);
      if GoesOn(step, s, r, attempt, limited) {
        var c := step.ending.class_;
        RestIsTimely(s, r, env, attempt, CountLimited(limited, c), Some(c));
      }
    }
    hide Rest, SendOnceSpec, Deadline, Budget, RateLimitCap, Held, GoesOn;
  }

  /** No send starts at or after the deadline, and its timeout fits into the time that is left. */
  lemma NoSendAfterDeadline(s: Settings, r: Request, env: nat -> Turn)
    ensures AllTimely(Call(s, r, env).log, Deadline(s, r), s.timeout)
  {
    RestIsTimely(s, r, env, 0, 0, None);
  }

  /** The deadline is the earliest of the configured one and the caller's two; there is none exactly when none is given. */
  lemma DeadlineIsTheEarliest(s: Settings, r: Request, d: real)
    ensures Deadline(s, r) == None <==> s.deadline <= 0.0 && r.absolute == None && r.relative == None
    ensures Deadline(s, r).Some? ==>
              (d <= Deadline(s, r).value <==>
               && (s.deadline > 0.0 ==> d <= r.entry + s.deadline)
               && (r.absolute.Some? ==> d <= r.absolute.value)
               && (r.relative.Some? ==> d <= r.entry + RMax(0.0, r.relative.value)))
  {
  }

  // --------------------------------------------------------- why a call ends

  function EndingOf(turn: Turn): Ending { Classify(turn.reply).1 }

  /** The denial of a turn that sent nothing says what the last reply was. */
  predicate DeniedAfter(e: Error, why: Denial, last: Option<Class>) {
    e == if last == Some(Limited) then RateLimited(why) else TimedOut(why)
  }

  /** Some reading of the turn's clocks was at or past the deadline. */
  predicate SomeClockExpired(turn: Turn, deadline: Option<real>) {
    || Expired(deadline, turn.retryClock)
    || Expired(deadline, turn.gateClock)
    || Expired(deadline, turn.sendClock)
    || (turn.shared.Granted? && Expired(deadline, turn.shared.clock))
  }

  /** What must have happened in the turn behind the last send for the call to end without another one. */
  predicate TurnStops(turn: Turn, first: bool, deadline: Option<real>, last: Option<Class>, e: Error) {
    || (DeniedAfter(e, DeadlineExceeded, last) && SomeClockExpired(turn, deadline))
    || (DeniedAfter(e, StormGuard, last) && !first && !turn.stormAllows)
    || (e == Deferred && !turn.gateOpen)
    || (e == BadConfiguration && turn.shared == BadFlag)
    || (e == LimiterUnavailable && turn.shared == Unavailable)
    || (e == LimiterDenied && turn.shared == Denied)
    || (turn.shared.Granted? && turn.shared.prepare == Revoked(false) && e == GrantRevoked)
    || (turn.shared.Granted? && turn.shared.prepare == Revoked(true) && e == RevokeFailed)
    || (turn.shared.Granted? && turn.shared.prepare == PrepareFails && e == PrepareRaised)
  }

  /** The class of the last of some sends, if any was made in this call. */
  function LastClass(env: nat -> Turn, sends: nat, before: nat, last: Option<Class>): Option<Class> {
    if sends <= before then last
    else
      match EndingOf(env(sends - 1))
      case Ends(c) => Some(c)
      case Throws(_) => None
  }

  /** Why a call that has made this many sends, and met this many rate limits, ends as it does. */
  predicate Caused(s: Settings, r: Request, env: nat -> Turn, result: Result, sends: nat, limits: nat,
                   before: nat, last: Option<Class>) {
    var lastClass := LastClass(env, sends, before, last);
    match result
    case Payload(k) => k == sends > before && EndingOf(env(sends - 1)) == Ends(Success)
    case Failed(Thrown(f)) => sends > before && EndingOf(env(sends - 1)) == Throws(f)
    case Failed(e) =>
      || (DeniedAfter(e, AttemptBudget, lastClass) && sends == Budget(s) > before)
      || (DeniedAfter(e, RetryCap, lastClass) && lastClass == Some(Limited) && limits == RateLimitCap(s, r.prio) + 1)
      || (sends < Budget(s) && TurnStops(env(sends), sends == 0, Deadline(s, r), lastClass, e))
  }

  lemma SendOnceStops(turn: Turn, attempt: nat, reason: Reason, timeout: real,
                      deadline: Option<real>, last: Option<Class>)
    ensures var step := SendOnceSpec(turn, attempt, reason, timeout, deadline, last).1;
            match step
            case Replied(ending) => ending == EndingOf(turn)
            case Stopped(e) => TurnStops(turn, attempt == 1, deadline, last, e) && !e.Thrown?
  {
    hide Classify;
  }

  /** A turn that is held, or whose deadline is over before the gate, ends the call for that reason. */
  lemma HeldStops(s: Settings, r: Request, env: nat -> Turn, attempts: nat, limited: nat, last: Option<Class>)
    requires attempts < Budget(s)
    requires Held(env(attempts), attempts + 1, Deadline(s, r)) || Expired(Deadline(s, r), env(attempts).gateClock)
    ensures var t := Rest(s, r, env, attempts, limited, last);
            && t.result.Failed? && !t.result.error.Thrown?
            && TurnStops(env(attempts), attempts == 0, Deadline(s, r), last, t.result.error)
            && Sends(t.log) == [] && Limits(t.log) == []
  {
    AllNone();
    AllOne(Logged(attempts + 1, RecordSkip, ReasonOf(last)));
    hide SendOnceSpec, Deadline, Sends, Limits;
  }

  /** An attempt after which the call ends. */
  lemma LastAttempt(s: Settings, r: Request, env: nat -> Turn, attempts: nat, limited: nat, last: Option<Class>, step: Step)
    requires attempts < Budget(s) && limited <= RateLimitCap(s, r.prio)
    requires !GoesOn(step, s, r, attempts + 1, limited)
    requires match step
             case Replied(ending) => ending == EndingOf(env(attempts))
             case Stopped(e) => TurnStops(env(attempts), attempts == 0, Deadline(s, r), last, e) && !e.Thrown?
    ensures Caused(s, r, env, ResultOf(step, s, attempts + 1),
                   attempts + (if step.Replied? then 1 else 0),
                   limited + (if step == Replied(Ends(Limited)) then 1 else 0), attempts, last)
  {
    hide TurnStops, Deadline, EndingOf, RateLimitCap, Budget;
  }

  lemma AccountsCount(events: seq<Event>, step: Step, attempt: nat, reason: Reason)
    requires Accounts(events, step, attempt, reason)
    ensures |Sends(events)| == (if step.Replied? then 1 else 0)
    ensures |Limits(events)| == (if step == Replied(Ends(Limited)) then 1 else 0)
  {
    hide Sends, Limits, Records, Accounted, HistoryFits, History;
  }

  /** The cause found behind an attempt is the cause of the call that made it. */
  lemma CausedBehind(s: Settings, r: Request, env: nat -> Turn, result: Result, sends: nat, limits: nat,
                     before: nat, c: Class, last: Option<Class>)
    requires sends > before && EndingOf(env(before)) == Ends(c) && c != Success
    requires Caused(s, r, env, result, sends, limits, before + 1, Some(c))
    ensures Caused(s, r, env, result, sends, limits, before, last)
  {
    hide TurnStops, Deadline, EndingOf, RateLimitCap, Budget;
    assert LastClass(env, sends, before + 1, Some(c)) == LastClass(env, sends, before, last);
  }

  lemma {:induction false} RestCaused(s: Settings, r: Request, env: nat -> Turn, attempts: nat, limited: nat, last: Option<Class>)
    requires attempts < Budget(s) && limited <= RateLimitCap(s, r.prio)
    ensures var t := Rest(s, r, env, attempts, limited, last);
            Caused(s, r, env, t.result, attempts + |Sends(t.log)|, limited + |Limits(t.log)|, attempts, last)
    decreases Budget(s) - attempts
  {
    var turn, deadline := env(attempts), Deadline(s, r);
    if Held(turn, attempts + 1, deadline) || Expired(deadline, turn.gateClock) {
      HeldStops(s, r, env, attempts, limited, last);
    } else {
      TriedCaused(s, r, env, attempts, limited, last);
    }
    hide Rest, Sends, Limits, TurnStops, Deadline, Held, RateLimitCap;
  }

  lemma {:induction false} TriedCaused(s: Settings, r: Request, env: nat -> Turn, attempts: nat, limited: nat, last: Option<Class>)
    requires attempts < Budget(s) && limited <= RateLimitCap(s, r.prio)
    requires !Held(env(attempts), attempts + 1, Deadline(s, r)) && !Expired(Deadline(s, r), env(attempts).gateClock)
    ensures var t := Rest(s, r, env, attempts, limited, last);
            Caused(s, r, env, t.result, attempts + |Sends(t.log)|, limited + |Limits(t.log)|, attempts, last)
    decreases Budget(s) - attempts, 0
  {
    hide Rest, SendOnceSpec, Caused, Sends, Limits, Accounts, TurnStops, Deadline, Held, EndingOf, Narrowed, ReasonOf;
    var turn, deadline := env(attempts), Deadline(s, r);
    var timeout := Narrowed(s.timeout, deadline, turn.gateClock);
    var (events, step) := SendOnceSpec(turn, attempts + 1, ReasonOf(last), timeout, deadline, last);
    RestTried(s, r, env, attempts, limited, last);
    SendOnceAccounts(turn, attempts + 1, ReasonOf(last), timeout, deadline, last);
    AccountsCount(events, step, attempts + 1, ReasonOf(last));
    SendOnceStops(turn, attempts + 1, ReasonOf(last), timeout, deadline, last);
    if GoesOn(step, s, r, attempts + 1, limited) {
      var c := step.ending.class_;
      var rest := Rest(s, r, env, attempts + 1, CountLimited(limited, c), Some(c));
      RestCaused(s, r, env, attempts + 1, CountLimited(limited, c), Some(c));
      AllJoin(events, rest.log);
      CausedBehind(s, r, env, rest.result, attempts + 1 + |Sends(rest.log)|,
                   CountLimited(limited, c) + |Limits(rest.log)|, attempts, c, last);
    } else {
      LastAttempt(s, r, env, attempts, limited, last, step);
    }
  }

  /**
   * No call gives up early. It returns a payload when its last send succeeded
   * and raises what its last send raised; otherwise its budget is used up, or
   * its rate-limit cap, or something in the very next turn kept it from
   * sending: the deadline, the retry guard, the gate or the shared limiter.
   */
  lemma EveryEndHasItsCause(s: Settings, r: Request, env: nat -> Turn)
    ensures var t := Call(s, r, env);
            Caused(s, r, env, t.result, |Sends(t.log)|, |Limits(t.log)|, 0, None)
  {
    hide Rest, Caused, Sends, Limits;
    RestCaused(s, r, env, 0, 0, None);
  }

  // ------------------------------------------------- what every exit settles

  /** The turn gets past the retry guard, the breaker gate and the deadline before the limiter. */
  predicate PassesGate(s: Settings, r: Request, env: nat -> Turn, k: nat) {
    !Held(env(k), k + 1, Deadline(s, r)) && !Expired(Deadline(s, r), env(k).gateClock)
  }

  /** The shared limiter grants in time, and is asked for permission to send. */
  predicate AsksToSend(turn: Turn, deadline: Option<real>) {
    turn.shared.Granted? && !Expired(deadline, turn.shared.clock)
  }

  /** The request leaves: no shared limiter or its permission, and still before the deadline. */
  predicate Transmits(turn: Turn, deadline: Option<real>) {
    && (turn.shared == Off || (AsksToSend(turn, deadline) && turn.shared.prepare == Ready))
    && !Expired(deadline, turn.sendClock)
  }

  /** The rate limits among the first k replies. */
  function LimitedBefore(env: nat -> Turn, k: nat): nat {
    if k == 0 then 0 else LimitedBefore(env, k - 1) + if EndingOf(env(k - 1)) == Ends(Limited) then 1 else 0
  }

  /** Turn k sends, its reply may be retried, and budget and cap allow another turn. */
  predicate Continues(s: Settings, r: Request, env: nat -> Turn, k: nat) {
    && PassesGate(s, r, env, k) && Transmits(env(k), Deadline(s, r)) && k + 1 < Budget(s)
    && (EndingOf(env(k)) == Ends(Timeout) ||
        (EndingOf(env(k)) == Ends(Limited) && LimitedBefore(env, k) < RateLimitCap(s, r.prio)))
  }

  /** The call gets to turn k. */
  predicate Reaches(s: Settings, r: Request, env: nat -> Turn, k: nat) {
    k == 0 || (Reaches(s, r, env, k - 1) && Continues(s, r, env, k - 1))
  }

  /** The call gets to turn k, and there asking for permission to send raises an exception. */
  predicate PrepareBreaks(s: Settings, r: Request, env: nat -> Turn, k: nat) {
    && Reaches(s, r, env, k) && PassesGate(s, r, env, k)
    && AsksToSend(env(k), Deadline(s, r)) && env(k).shared.prepare == PrepareFails
  }

  /** The call gets to turn k, and is interrupted during the send it makes there. */
  predicate SendBreaks(s: Settings, r: Request, env: nat -> Turn, k: nat) {
    && Reaches(s, r, env, k) && PassesGate(s, r, env, k)
    && Transmits(env(k), Deadline(s, r)) && env(k).reply == Interrupted
  }

  function LastReply(env: nat -> Turn, k: nat): Option<Class> {
    if k == 0 then None
    else
      match EndingOf(env(k - 1))
      case Ends(c) => Some(c)
      case Throws(_) => None
  }

  lemma {:induction false} ReachesThrough(s: Settings, r: Request, env: nat -> Turn, i: nat, j: nat)
    requires Reaches(s, r, env, j) && i < j
    ensures Continues(s, r, env, i)
    decreases j
  {
    if i < j - 1 {
      ReachesThrough(s, r, env, i, j - 1);
    }
  }

  lemma SendOnceSteps(turn: Turn, attempt: nat, reason: Reason, timeout: real,
                      deadline: Option<real>, last: Option<Class>)
    ensures var step := SendOnceSpec(turn, attempt, reason, timeout, deadline, last).1;
            && (step.Replied? <==> Transmits(turn, deadline))
            && (step.Replied? ==> step.ending == EndingOf(turn))
            && (step == Stopped(PrepareRaised) <==> AsksToSend(turn, deadline) && turn.shared.prepare == PrepareFails)
            && (step.Stopped? ==> !step.error.Thrown?)
  {
    hide Classify;
  }

  lemma OnlyInterruptions(reply: Reply)
    ensures Classify(reply).1 == Throws(Interruption) <==> reply == Interrupted
  {
  }

  /** The part of a call from turn k on. */
  function From(s: Settings, r: Request, env: nat -> Turn, k: nat): Trace
    requires k < Budget(s)
  {
    Rest(s, r, env, k, LimitedBefore(env, k), LastReply(env, k))
  }

  /** One turn: the call goes on as from the next one, or ends in this one. */
  lemma FromTurn(s: Settings, r: Request, env: nat -> Turn, k: nat)
    requires Reaches(s, r, env, k) && k < Budget(s)
    ensures Continues(s, r, env, k) ==> k + 1 < Budget(s) && From(s, r, env, k).result == From(s, r, env, k + 1).result
    ensures !Continues(s, r, env, k) ==>
              && (From(s, r, env, k).result == Failed(PrepareRaised) <==> PrepareBreaks(s, r, env, k))
              && (From(s, r, env, k).result == Failed(Thrown(Interruption)) <==> SendBreaks(s, r, env, k))
  {
    var deadline, turn, last := Deadline(s, r), env(k), LastReply(env, k);
    var limited := LimitedBefore(env, k);
    hide Rest, Deadline, Held, Classify, SendOnceSpec;
    if Held(turn, k + 1, deadline) {
      RestHeld(s, r, env, k, limited, last);
    } else if Expired(deadline, turn.gateClock) {
      RestSkipped(s, r, env, k, limited, last);
    } else {
      RestTried(s, r, env, k, limited, last);
      SendOnceSteps(turn, k + 1, ReasonOf(last), Narrowed(s.timeout, deadline, turn.gateClock), deadline, last);
      OnlyInterruptions(turn.reply);
      hide Budget, RateLimitCap;
    }
  }

  lemma {:induction false} EndsAtTurn(s: Settings, r: Request, env: nat -> Turn, k: nat)
    requires Reaches(s, r, env, k) && k < Budget(s)
    ensures From(s, r, env, k).result == Failed(PrepareRaised) <==> exists j :: j >= k && PrepareBreaks(s, r, env, j)
    ensures From(s, r, env, k).result == Failed(Thrown(Interruption)) <==> exists j :: j >= k && SendBreaks(s, r, env, j)
    decreases Budget(s) - k
  {
    FromTurn(s, r, env, k);
    if Continues(s, r, env, k) {
      assert Reaches(s, r, env, k + 1);
      EndsAtTurn(s, r, env, k + 1);
    }
    forall j | j > k && !Continues(s, r, env, k) ensures !Reaches(s, r, env, j) {
      if Reaches(s, r, env, j) {
        ReachesThrough(s, r, env, k, j);
      }
    }
    hide From, Reaches, Continues, PassesGate, AsksToSend, Transmits, Budget;
  }

  /**
   * Each grant of the shared limiter is reported once, in order, on every
   * exit, unless the call gets to a turn in which asking for permission to
   * send raises: then the grant of that turn, and no other, goes unreported.
   */
  lemma OneReportPerGrant(s: Settings, r: Request, env: nat -> Turn)
    ensures var log := Call(s, r, env).log;
            && (Reports(log) == Grants(log) <==> !exists k :: PrepareBreaks(s, r, env, k))
            && Reports(log) <= Grants(log)
            && |Grants(log)| <= |Reports(log)| + 1
  {
    hide Sends, Limits, Records, Grants, Reports, History, Rest, PrepareBreaks, SendBreaks;
    CallFacts(s, r, env);
    EndsAtTurn(s, r, env, 0);
  }

  /**
   * Records that are not skips match the sends one by one, unless the call
   * gets to a turn in which its send is interrupted: then that last send, and
   * no other, goes unrecorded.
   */
  lemma OneRecordPerSend(s: Settings, r: Request, env: nat -> Turn)
    ensures var log := Call(s, r, env).log;
            && (Records(log) == Sends(log) <==> !exists k :: SendBreaks(s, r, env, k))
            && Records(log) <= Sends(log)
            && |Sends(log)| <= |Records(log)| + 1
  {
    hide Sends, Limits, Records, Grants, Reports, History, Rest, PrepareBreaks, SendBreaks;
    CallFacts(s, r, env);
    EndsAtTurn(s, r, env, 0);
  }

  // ------------------------------------------------------- the exceptions occur

  const SETTINGS := Settings(3, 2, 10.0, 60.0)
  const REQUEST := Request(P1, 0.0, None, None)
  const GRANT := Gid(1, 1)

  const RAISING := Turn(1.0, true, true, 1.0, Granted(GRANT, 1.0, PrepareFails), 1.0, TimesOut)
  const INTERRUPTED := Turn(1.0, true, true, 1.0, Off, 1.0, Interrupted)

  /** An exception out of the permission to send leaves its grant without a report. */
  lemma UnreportedGrantOccurs()
    ensures var log := Call(SETTINGS, REQUEST, _ => RAISING).log;
            Grants(log) == [GRANT] && Reports(log) == []
  {
    var env: nat -> Turn := _ => RAISING;
    assert Call(SETTINGS, REQUEST, env).log == [Acquired(GRANT)];
    AllOne(Acquired(GRANT));
  }

  /** An interruption during a send leaves it without a record. */
  lemma UnrecordedSendOccurs()
    ensures var log := Call(SETTINGS, REQUEST, _ => INTERRUPTED).log;
            Sends(log) == [1] && Records(log) == []
  {
    var env: nat -> Turn := _ => INTERRUPTED;
    var sent := Sent(1, 1.0, 10.0);
    assert Call(SETTINGS, REQUEST, env).log == [sent];
    AllOne(sent);
  }

  // -------------------------------------------------------------- what is reported

  /**
   * The limiter hears of a success or a rate limit exactly when telemetry
   * recorded one, and of a timeout also when the body could not be read in time.
   */
  lemma OutcomeMatchesRecord(reply: Reply)
    ensures var (record, ending) := Classify(reply);
            var o := LimiterOutcome(ending);
            && (o == OK <==> record == Some(RecordOk))
            && (o == RATE_LIMIT <==> record == Some(RecordRateLimit))
            && (o == TIMEOUT <==> record == Some(RecordTimeout) || ending == Throws(ReadTimeout))
            && Recordable(o)
  {
    ClassifyRecords(reply);
    hide Classify;
  }

  /**
   * An HTTP failure status means the same whether it is raised or returned,
   * except for 401 and 403: raised they are an authentication failure,
   * returned they are a plain error, to the caller and to the limiter.
   */
  lemma DeliveryIndependence(status: int, body: Body)
    requires !(200 <= status < 300)
    ensures Classify(RaisedStatus(status)) == Classify(Returned(status, body)) <==> status != 401 && status != 403
    ensures LimiterOutcome(Classify(RaisedStatus(status)).1) == LimiterOutcome(Classify(Returned(status, body)).1)
       <==> status != 401 && status != 403
  {
    assert Throws(AuthFailure) != Throws(ApiFailure);
  }
}
