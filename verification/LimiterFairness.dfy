/**
 * Selection: at any instant one request has the turn, the turn exists
 * whenever work may proceed, classes are FIFO inside, and an eligible class
 * is overtaken only by higher classes, and only as far as their curves allow.
 */
module LimiterFairness {
  import opened Basics
  import opened LimiterConfig
  import opened LimiterState
  import opened LimiterSpec
  import opened LimiterInvariants
  import opened LimiterProtocol
  import opened LimiterHistory
  import opened LimiterWorld
  import opened LimiterSafety
  import opened LimiterRate

  // ------------------------------------------------------------------- heads

  lemma {:induction false} LeastKey(pending: map<Rid, Demand>, rs: set<Rid>) returns (r: Rid)
    requires rs != {} && rs <= pending.Keys
    ensures r in rs
    ensures forall r' :: r' in rs && r' != r ==> Before(pending[r], r, pending[r'], r')
    decreases rs
  {
    r :| r in rs;
    if rs != {r} {
      var q := LeastKey(pending, rs - {r});
      if Before(pending[q], q, pending[r], r) {
        r := q;
      }
    }
  }

  /** Every waiting class has a head. */
  lemma HeadExists(pending: map<Rid, Demand>, p: Prio)
    ensures HeadOf(pending, p).Some? <==> Backlogged(pending, p)
    ensures HeadOf(pending, p).Some? ==> IsHead(pending, p, HeadOf(pending, p).value)
  {
    if Backlogged(pending, p) {
      var rs := set r | r in pending && pending[r].prio == p;
      var x :| x in pending && pending[x].prio == p;
      assert x in rs;
      var r := LeastKey(pending, rs);
      assert IsHead(pending, p, r);
    }
  }

  // -------------------------------------------------------------------- curves

  /**
   * A class is eligible when what it was served in this epoch is at most its
   * weight's part of the rate over the epoch so far and the credit time.
   */
  lemma EligibleByWeight(cfg: Config, s: State, p: Prio, wall: real)
    requires cfg.Valid()
    ensures var total := cfg.weights.p0 + cfg.weights.p1 + cfg.weights.p2 + cfg.weights.p3;
            var elapsed := if wall > s.epochStart then wall - s.epochStart else 0.0;
            Eligible(cfg, s, p, wall) <==>
              s.usage.At(p) as real * total <= cfg.gRps * cfg.weights.At(p) * (elapsed + cfg.creditK)
  {
    hide Eligible, Allowance, Portion;
    var total := cfg.weights.p0 + cfg.weights.p1 + cfg.weights.p2 + cfg.weights.p3;
    var elapsed := if wall > s.epochStart then wall - s.epochStart else 0.0;
    TotalIsPositive(cfg);
    CurveIs(cfg, s, p, wall);
    ShareByWeight(cfg, p);
    hide Config.Valid, Config.Share, PerPrio.At;
    Weigh(s.usage.At(p) as real, cfg.Share(p), elapsed + cfg.creditK, total, cfg.gRps * cfg.weights.At(p));
  }

  lemma TotalIsPositive(cfg: Config)
    requires cfg.Valid()
    ensures cfg.weights.p0 + cfg.weights.p1 + cfg.weights.p2 + cfg.weights.p3 > 0.0
  {
    cfg.WeightsPositive();
  }

  lemma CurveIs(cfg: Config, s: State, p: Prio, wall: real)
    requires cfg.Valid()
    ensures var elapsed := if wall > s.epochStart then wall - s.epochStart else 0.0;
            && (Eligible(cfg, s, p, wall) <==> s.usage.At(p) as real <= cfg.Share(p) * (elapsed + cfg.creditK))
            && Allowance(cfg, s, p, wall) == cfg.Share(p) * (elapsed + cfg.creditK)
  {
    var elapsed := if wall > s.epochStart then wall - s.epochStart else 0.0;
    assert Elapsed(s, wall) == elapsed && cfg.Credit(p) == cfg.creditK * cfg.Share(p);
    hide Portion;
    Spread(cfg.Share(p), elapsed, cfg.creditK);
  }

  lemma Spread(share: real, elapsed: real, k: real)
    ensures share * elapsed + k * share == share * (elapsed + k)
  {
  }

  lemma ShareByWeight(cfg: Config, p: Prio)
    requires cfg.Valid()
    ensures cfg.Share(p) * (cfg.weights.p0 + cfg.weights.p1 + cfg.weights.p2 + cfg.weights.p3) == cfg.gRps * cfg.weights.At(p)
  {
    hide Portion;
    SharesPartitionTheRate(cfg);
  }

  lemma Weigh(usage: real, share: real, time: real, total: real, part: real)
    requires total > 0.0 && share * total == part
    ensures usage <= share * time <==> usage * total <= part * time
  {
    var curve := share * time;
    assert part * time == curve * total;
    if usage <= curve {
      assert (curve - usage) * total >= 0.0;
    } else {
      assert (usage - curve) * total > 0.0;
    }
  }

  /** The classes with a waiter. */
  ghost function WaitingSet(s: State): set<Prio> { set p: Prio | p in {P0, P1, P2, P3} && Backlogged(s.pending, p) }

  lemma WaitingIsCounted(s: State)
    ensures WaitingClasses(s) == |WaitingSet(s)|
    ensures forall p :: Waiting(s, p) == if p in WaitingSet(s) then 1 else 0
  {
    forall p ensures Waiting(s, p) == if p in WaitingSet(s) then 1 else 0 {
      HeadExists(s.pending, p);
      hide HeadOf, Backlogged;
    }
    SizeByClass(WaitingSet(s));
    hide Waiting, WaitingSet;
  }

  lemma SizeByClass(ps: set<Prio>)
    ensures |ps| == (if P0 in ps then 1 else 0) + (if P1 in ps then 1 else 0)
                  + (if P2 in ps then 1 else 0) + (if P3 in ps then 1 else 0)
  {
    var a := SizeWithout(ps, P0);
    var b := SizeWithout(a, P1);
    var c := SizeWithout(b, P2);
    var d := SizeWithout(c, P3);
    NoOtherClass(d);
  }

  lemma NoOtherClass(ps: set<Prio>)
    requires P0 !in ps && P1 !in ps && P2 !in ps && P3 !in ps
    ensures |ps| == 0
  {
    if ps != {} {
      var p :| p in ps;
      match p
      case P0 =>
      case P1 =>
      case P2 =>
      case P3 =>
    }
  }

  lemma SizeWithout(ps: set<Prio>, p: Prio) returns (rest: set<Prio>)
    ensures |ps| == |rest| + if p in ps then 1 else 0
    ensures p !in rest && forall q :: q != p ==> (q in rest <==> q in ps)
  {
    rest := ps - {p};
    if p !in ps {
      assert rest == ps;
    }
  }

  // ----------------------------------------------------------------- borrowing

  /** p beats q for a borrow. */
  ghost predicate Beats(cfg: Config, s: State, p: Prio, q: Prio, wall: real)
    requires cfg.Valid()
  {
    || Ratio(cfg, s, p, wall) < Ratio(cfg, s, q, wall)
    || (Ratio(cfg, s, p, wall) == Ratio(cfg, s, q, wall) && Rank(p) < Rank(q))
  }

  /** Among the first k classes, the possible borrowers have a best one. */
  lemma {:induction false} BestBorrower(cfg: Config, s: State, wall: real, k: nat) returns (p: Prio)
    requires cfg.Valid() && k <= 4
    requires exists q :: CanBorrow(s, q) && Rank(q) < k
    ensures CanBorrow(s, p) && Rank(p) < k
    ensures forall q :: CanBorrow(s, q) && Rank(q) < k && q != p ==> Beats(cfg, s, p, q, wall)
    decreases k
  {
    hide Ratio, CanBorrow;
    var last := PRIORITY_ORDER[k - 1];
    assert Rank(last) == k - 1;
    assert forall q :: Rank(q) == k - 1 ==> q == last;
    if exists q :: CanBorrow(s, q) && Rank(q) < k - 1 {
      p := BestBorrower(cfg, s, wall, k - 1);
      if CanBorrow(s, last) && Ratio(cfg, s, last, wall) < Ratio(cfg, s, p, wall) {
        p := last;
      }
    } else {
      p := last;
    }
  }

  lemma BorrowCandidateExists(cfg: Config, s: State, wall: real)
    requires cfg.Valid()
    ensures BorrowCandidate(cfg, s, wall).Some? <==> exists p :: CanBorrow(s, p)
  {
    if exists p :: CanBorrow(s, p) {
      var p := BestBorrower(cfg, s, wall, 4);
      assert IsBorrower(cfg, s, p, wall);
    }
  }

  // ---------------------------------------------------------------- the winner

  /** The winner is the FIFO head of its class. */
  lemma WinnerIsAHead(cfg: Config, s: State, wall: real)
    requires cfg.Valid() && Winner(cfg, s, wall).Some?
    ensures var (p, r) := Winner(cfg, s, wall).value; IsHead(s.pending, p, r)
  {
    HeadExists(s.pending, P0);
    HeadExists(s.pending, P1);
    HeadExists(s.pending, P2);
    HeadExists(s.pending, P3);
    hide HeadOf, IsHead, Eligible, Ratio;
  }

  /**
   * Work conservation, exactly: with a token in hand somebody has the turn if
   * and only if a waiting class is eligible, or somebody waits and there is a
   * token for every waiting class.
   */
  lemma SomebodyHasTheTurn(cfg: Config, s: State, wall: real)
    requires cfg.Valid()
    ensures Winner(cfg, s, wall).Some? <==>
              || (exists p :: Backlogged(s.pending, p) && Eligible(cfg, s, p, wall))
              || ((exists p :: Backlogged(s.pending, p)) && s.tokens >= |WaitingSet(s)| as real)
  {
    WaitingIsCounted(s);
    hide WaitingSet;
    forall p
      ensures HeadOf(s.pending, p).Some? <==> Backlogged(s.pending, p)
    {
      HeadExists(s.pending, p);
    }
    BorrowCandidateExists(cfg, s, wall);
    hide HeadOf, Backlogged, Eligible, BorrowCandidate;
    BestEligibleExists(cfg, s, wall);
    if exists p :: Backlogged(s.pending, p) && s.tokens >= WaitingClasses(s) as real {
      var p :| Backlogged(s.pending, p);
      assert CanBorrow(s, p);
    }
  }

  lemma BestEligibleExists(cfg: Config, s: State, wall: real)
    requires cfg.Valid()
    ensures BestEligible(cfg, s, wall).Some? <==> exists p :: Servable(cfg, s, p, wall)
  {
    hide HeadOf, Eligible, Servable;
    forall p | Servable(cfg, s, p, wall)
      ensures BestEligible(cfg, s, wall).Some?
    {
      match p
      case P0 =>
      case P1 =>
      case P2 =>
      case P3 =>
    }
  }

  /** The requests a transaction could grant in this document: never two. */
  ghost predicate Grantable(cfg: Config, s: State, p: Prio, r: Rid, e: Env)
    requires cfg.Valid()
  {
    TryGrant(cfg, s, p, r, e).Issued?
  }

  /**
   * One winner: of all requests at most one can be granted, and exactly one
   * can when there is a token, room and, in recovery, a free slot with a
   * usable witness, and somebody has the turn.
   */
  lemma OneWinner(cfg: Config, s: State, e: Env)
    requires cfg.Valid()
    ensures forall p, r, p', r' :: Grantable(cfg, s, p, r, e) && Grantable(cfg, s, p', r', e) ==> p == p' && r == r'
    ensures (exists p, r :: Grantable(cfg, s, p, r, e)) <==>
              && s.tokens >= 1.0 && |s.grants| < cfg.registryCapacity
              && (s.breaker.state == RECOVERY ==> s.breaker.probe == None && !e.witnessFails)
              && Winner(cfg, s, e.wall).Some?
  {
    hide Winner;
    if Winner(cfg, s, e.wall).Some? {
      var (p, r) := Winner(cfg, s, e.wall).value;
      assert Grantable(cfg, s, p, r, e) <==>
               && s.tokens >= 1.0 && |s.grants| < cfg.registryCapacity
               && (s.breaker.state == RECOVERY ==> s.breaker.probe == None && !e.witnessFails);
    }
  }

  /** A borrow leaves at least one token for each other waiting class. */
  lemma BorrowKeepsReserve(cfg: Config, s: State, p: Prio, r: Rid, e: Env)
    requires cfg.Valid() && Grantable(cfg, s, p, r, e) && BestEligible(cfg, s, e.wall) == None
    ensures p in WaitingSet(s) && Issue(cfg, s, p, r, e).tokens >= |WaitingSet(s) - {p}| as real
  {
    hide HeadOf, Eligible, Ratio, WaitingSet;
    WaitingIsCounted(s);
    assert |WaitingSet(s) - {p}| == |WaitingSet(s)| - 1;
  }

  /** The quotient that decides a borrow, with the curve written out. */
  lemma RatioIs(cfg: Config, s: State, p: Prio, wall: real)
    requires cfg.Valid()
    ensures Floored(cfg, s, p, wall) > 0.0 && Ratio(cfg, s, p, wall) * Floored(cfg, s, p, wall) == s.usage.At(p) as real
  {
    CurveIs(cfg, s, p, wall);
    hide Allowance, Portion;
    Quotient(s.usage.At(p) as real, Floored(cfg, s, p, wall));
  }

  lemma Quotient(a: real, b: real)
    requires b > 0.0
    ensures (a / b) * b == a
  {
  }

  /** The curve of a class, floored above zero. */
  function Floored(cfg: Config, s: State, p: Prio, wall: real): real
    requires cfg.Valid()
  {
    var elapsed := if wall > s.epochStart then wall - s.epochStart else 0.0;
    RMax(cfg.Share(p) * (elapsed + cfg.creditK), 0.000000001)
  }

  lemma CrossMultiplied(a: real, x: real, u: real, b: real, y: real, v: real)
    requires x > 0.0 && y > 0.0 && a * x == u && b * y == v
    ensures a < b <==> u * y < v * x
    ensures a == b <==> u * y == v * x
  {
    assert u * y == a * (x * y) && v * x == b * (x * y);
    assert x * y > 0.0;
    if a < b {
      assert (b - a) * (x * y) > 0.0;
    } else if a > b {
      assert (a - b) * (x * y) > 0.0;
    }
  }

  /**
   * A borrow goes to the class that is least over its curve: against every
   * other waiting class its usage weighed with the other's curve is less, or
   * as much and it has the higher priority.
   */
  lemma BorrowGoesToTheLeast(cfg: Config, s: State, p: Prio, r: Rid, wall: real, q: Prio)
    requires cfg.Valid() && Winner(cfg, s, wall) == Some((p, r)) && BestEligible(cfg, s, wall) == None
    requires Backlogged(s.pending, q) && q != p
    ensures var a, b := s.usage.At(p) as real * Floored(cfg, s, q, wall), s.usage.At(q) as real * Floored(cfg, s, p, wall);
            a < b || (a == b && Rank(p) < Rank(q))
  {
    hide Ratio, Floored, HeadOf, Eligible, Backlogged, WaitingClasses, Winner, BestEligible;
    HeadExists(s.pending, q);
    RatioIs(cfg, s, p, wall);
    RatioIs(cfg, s, q, wall);
    BorrowerBeats(cfg, s, p, r, wall, q);
    CrossMultiplied(Ratio(cfg, s, p, wall), Floored(cfg, s, p, wall), s.usage.At(p) as real,
                    Ratio(cfg, s, q, wall), Floored(cfg, s, q, wall), s.usage.At(q) as real);
  }

  lemma BorrowerBeats(cfg: Config, s: State, p: Prio, r: Rid, wall: real, q: Prio)
    requires cfg.Valid() && Winner(cfg, s, wall) == Some((p, r)) && BestEligible(cfg, s, wall) == None
    requires HeadOf(s.pending, q).Some? && q != p
    ensures Beats(cfg, s, p, q, wall)
  {
    hide Ratio, HeadOf, BestEligible, WaitingClasses;
    assert IsBorrower(cfg, s, p, wall);
    assert CanBorrow(s, q);
  }

  // ------------------------------------------------------------ bounded bypass

  /** The document on which this poll's selection is made: refreshed, with the poller registered. */
  ghost function Selection(cfg: Config, w: World, a: Action): Registration
    requires cfg.Valid() && Enabled(w, a) && a.PollOnce?
  {
    Register(cfg, Refresh(cfg, w.st, a.e), w.waiters[a.r].prio, a.r, w.waiters[a.r].anchor, a.e)
  }

  /** If this action is a poll that reaches selection, class p is waiting there. */
  ghost predicate StillWaiting(cfg: Config, w: World, a: Action, p: Prio)
    requires cfg.Valid() && Enabled(w, a)
  {
    a.PollOnce? && Selection(cfg, w, a).Registered? ==> Backlogged(Selection(cfg, w, a).t.st.pending, p)
  }

  /** From s to s' one class, not below p and within its curve, was served once. */
  ghost predicate ServesWithinCurve(cfg: Config, s: State, s': State, p: Prio, wall: real)
    requires cfg.Valid()
  {
    exists q :: Rank(q) <= Rank(p) && Eligible(cfg, s, q, wall) && s'.usage == s.usage.Put(q, s.usage.At(q) + 1)
  }

  lemma HeadUsage(cfg: Config, s: State, e: Env)
    requires cfg.Valid()
    ensures var s' := Steps(cfg, s, e).pruned.st;
            s'.usage == s.usage && s'.epochStart == s.epochStart && s'.epoch == s.epoch
  {
    hide Run, Next, Enabled, WorldOk, Inv, Agrees, Refresh, Poll, Record, PrepareSend, Select, Register, Issue,
      TryGrant, ProbePhase, ReconcilePhase, EvictPhase, FinishPoll, FinishReport, TxnOf, Evolves, SlotDiscipline,
      IssuedIds, HistoryOfRecord, HistoryOfRefresh, RunTxn;
  }

  lemma TailUsage(cfg: Config, t: Txn, e: Env)
    requires cfg.Valid()
    ensures var s' := EvictPhase(cfg, ReconcilePhase(CooldownPhase(t, e), e), e).st;
            s'.usage == t.st.usage && s'.epochStart == t.st.epochStart && s'.epoch == t.st.epoch
  {
  }

  /** Within an epoch a refresh leaves usage and the epoch's start alone. */
  lemma RefreshUsage(cfg: Config, s: State, e: Env)
    requires cfg.Valid() && Refresh(cfg, s, e).st.epoch == s.epoch
    ensures var s' := Refresh(cfg, s, e).st; s'.usage == s.usage && s'.epochStart == s.epochStart
  {
    HeadUsage(cfg, s, e);
    var t := Steps(cfg, s, e).pruned;
    TailUsage(cfg, ProbePhase(cfg, t, e), e);
    hide PrunePending, ClockRule, DropLeaked, CooldownPhase, ReconcilePhase, EvictPhase;
  }

  lemma DropUsage(t: Txn, r: Rid)
    ensures var d := Drop(t, r).st; d.usage == t.st.usage && d.epochStart == t.st.epochStart && d.epoch == t.st.epoch
  {
  }

  lemma PrepareUsage(t: Txn, g: Gid)
    ensures var d := PrepareSend(t, g).0.st;
            d.usage == t.st.usage && d.epochStart == t.st.epochStart && d.epoch == t.st.epoch
  {
    hide CloseGrant;
  }

  lemma RecordUsage(cfg: Config, t: Txn, g: Gid, o: Outcome, wall: real)
    requires cfg.Valid()
    ensures var d := Record(cfg, t, g, o, wall).0.st;
            d.epoch == t.st.epoch ==> d.usage == t.st.usage && d.epochStart == t.st.epochStart
  {
    hide CloseGrant;
  }

  lemma OperationsUsage(cfg: Config, t: Txn, r: Rid, g: Gid, o: Outcome, wall: real)
    requires cfg.Valid()
    ensures var d := Drop(t, r).st; d.usage == t.st.usage && d.epochStart == t.st.epochStart && d.epoch == t.st.epoch
    ensures var d := PrepareSend(t, g).0.st;
            d.usage == t.st.usage && d.epochStart == t.st.epochStart && d.epoch == t.st.epoch
    ensures var d := Record(cfg, t, g, o, wall).0.st;
            d.epoch == t.st.epoch ==> d.usage == t.st.usage && d.epochStart == t.st.epochStart
  {
    hide Drop, PrepareSend, Record;
    DropUsage(t, r);
    PrepareUsage(t, g);
    RecordUsage(cfg, t, g, o, wall);
  }

  /** An eligible waiting class p: the winner is p itself or a higher class that is eligible. */
  lemma WinnerIsNotBelow(cfg: Config, s: State, p: Prio, wall: real)
    requires cfg.Valid() && Backlogged(s.pending, p) && Eligible(cfg, s, p, wall)
    ensures BestEligible(cfg, s, wall).Some? && Winner(cfg, s, wall) == BestEligible(cfg, s, wall)
    ensures var q := Winner(cfg, s, wall).value.0; Rank(q) <= Rank(p) && Eligible(cfg, s, q, wall)
  {
    HeadExists(s.pending, p);
    hide HeadOf, Backlogged, Eligible, BorrowCandidate;
    assert Servable(cfg, s, p, wall);
  }

  /** One step of an epoch in which class p waits, eligible: only p or a higher class within its curve is served. */
  lemma PollServes(cfg: Config, w: World, a: Action, p: Prio)
    requires cfg.Valid() && Inv(cfg, w.st) && Enabled(w, a) && a.PollOnce? && StillWaiting(cfg, w, a, p)
    requires Eligible(cfg, w.st, p, a.e.wall)
    ensures var s' := TxnOf(cfg, w, a).st;
            s'.epoch == w.st.epoch ==>
              && s'.epochStart == w.st.epochStart
              && (s'.usage == w.st.usage || ServesWithinCurve(cfg, w.st, s', p, a.e.wall))
  {
    hide Run, Next, WorldOk, Inv, Agrees, Refresh, Record, Select, Register, Issue, TryGrant, ClockRule, ProbePhase,
      ReconcilePhase, EvictPhase, FinishPoll, FinishReport, Evolves, SlotDiscipline, IssuedIds, HistoryOfRecord,
      HistoryOfRefresh, RunTxn;
    hide Eligible;
    var wt := w.waiters[a.r];
    var t := Refresh(cfg, w.st, a.e);
    PollAfterRefresh(cfg, w.st, wt.prio, a.r, wt.anchor, a.e, a.budget);
    if t.st.epoch == w.st.epoch {
      RefreshUsage(cfg, w.st, a.e);
      RefreshKeeps(cfg, w.st, a.e);
      RegisterKeeps(cfg, t, wt.prio, a.r, wt.anchor, a.e);
      match Register(cfg, t, wt.prio, a.r, wt.anchor, a.e)
      case Full =>
      case Stale =>
      case Registered(t', anchor) =>
        SameCurve(cfg, w.st, t'.st, p, a.e.wall);
        SelectServes(cfg, t', wt.prio, a.r, anchor, a.e, a.budget, p);
        if Select(cfg, t', wt.prio, a.r, anchor, a.e, a.budget).t.st.usage != t'.st.usage {
          SameCurve(cfg, w.st, t'.st, wt.prio, a.e.wall);
        }
    }
  }

  lemma SameCurve(cfg: Config, s: State, s': State, p: Prio, wall: real)
    requires cfg.Valid() && s'.usage == s.usage && s'.epochStart == s.epochStart
    ensures Eligible(cfg, s', p, wall) <==> Eligible(cfg, s, p, wall)
  {
  }

  lemma SelectServes(cfg: Config, t: Txn, prio: Prio, r: Rid, anchor: real, e: Env, budget: real, p: Prio)
    requires cfg.Valid() && Inv(cfg, t.st) && Backlogged(t.st.pending, p) && Eligible(cfg, t.st, p, e.wall)
    ensures var s' := Select(cfg, t, prio, r, anchor, e, budget).t.st;
            && s'.epochStart == t.st.epochStart
            && (s'.usage == t.st.usage
                || (Rank(prio) <= Rank(p) && Eligible(cfg, t.st, prio, e.wall)
                    && s'.usage == t.st.usage.Put(prio, t.st.usage.At(prio) + 1)))
  {
    hide Winner, Eligible, Inv, Backlogged, BestEligible, Select, Issue;
    WinnerIsNotBelow(cfg, t.st, p, e.wall);
    SelectFrame(cfg, t, prio, r, anchor, e, budget);
    GrantedIsWinner(cfg, t, prio, r, anchor, e, budget);
    IssueUsage(cfg, t.st, prio, r, e);
  }

  lemma GrantedIsWinner(cfg: Config, t: Txn, prio: Prio, r: Rid, anchor: real, e: Env, budget: real)
    requires cfg.Valid()
    ensures Select(cfg, t, prio, r, anchor, e, budget).result.Granted? ==> Winner(cfg, t.st, e.wall) == Some((prio, r))
  {
    hide Winner, Issue;
  }

  lemma IssueUsage(cfg: Config, s: State, p: Prio, r: Rid, e: Env)
    ensures var s' := Issue(cfg, s, p, r, e);
            s'.usage == s.usage.Put(p, s.usage.At(p) + 1) && s'.epochStart == s.epochStart
  {
  }

  /** No writing action but a poll touches usage inside an epoch. */
  lemma OthersServeNobody(cfg: Config, w: World, a: Action)
    requires cfg.Valid() && Inv(cfg, w.st) && Enabled(w, a) && a.Writes() && !a.PollOnce?
    ensures var s' := TxnOf(cfg, w, a).st;
            s'.epoch == w.st.epoch ==> s'.usage == w.st.usage && s'.epochStart == w.st.epochStart
  {
    hide Run, Next, Enabled, WorldOk, Inv, Agrees, Refresh, Poll, Record, PrepareSend, Select;
    hide Drop;
    var t := Refresh(cfg, w.st, a.e);
    if t.st.epoch == w.st.epoch {
      RefreshUsage(cfg, w.st, a.e);
    }
    RefreshKeeps(cfg, w.st, a.e);
    match a
    case GiveUp(r, e, _) => OperationsUsage(cfg, t, r, Gid(0, 0), OK, e.wall);
    case DropDemand(r, e, _) => OperationsUsage(cfg, t, r, Gid(0, 0), OK, e.wall);
    case Prepare(g, e, _) => OperationsUsage(cfg, t, 0, g, OK, e.wall);
    case Report(g, o, e, _) =>
      OperationsUsage(cfg, t, 0, g, o, e.wall);
      RecordKeeps(cfg, t, g, o, e.wall);
    case Maintain(_, _) =>
  }

  /** What the bypass bound says of class q between two documents of an epoch. */
  predicate Bounded(cfg: Config, s0: State, s: State, q: Prio, p: Prio, wall: real)
    requires cfg.Valid()
  {
    if Rank(p) < Rank(q) then s.usage.At(q) == s0.usage.At(q)
    else q != p ==>
      && s0.usage.At(q) <= s.usage.At(q)
      && (s.usage.At(q) == s0.usage.At(q) || s.usage.At(q) as real <= Allowance(cfg, s, q, wall) + 1.0)
  }

  lemma CurveGrows(cfg: Config, s: State, q: Prio, wall: real, wall': real)
    requires cfg.Valid() && wall <= wall'
    ensures Allowance(cfg, s, q, wall) <= Allowance(cfg, s, q, wall')
  {
    SharePositive(cfg, q);
    var d := Elapsed(s, wall') - Elapsed(s, wall);
    assert d >= 0.0;
    assert cfg.Share(q) * d >= 0.0;
    assert cfg.Share(q) * Elapsed(s, wall') == cfg.Share(q) * Elapsed(s, wall) + cfg.Share(q) * d;
    hide Portion;
  }

  lemma BoundedStep(cfg: Config, s0: State, s: State, s': State, p: Prio, wall: real, wall': real)
    requires cfg.Valid() && wall <= wall' && s'.epochStart == s.epochStart
    requires forall q :: Bounded(cfg, s0, s, q, p, wall)
    requires s'.usage == s.usage || ServesWithinCurve(cfg, s, s', p, wall')
    ensures forall q :: Bounded(cfg, s0, s', q, p, wall')
  {
    forall q
      ensures Bounded(cfg, s0, s', q, p, wall')
    {
      assert Bounded(cfg, s0, s, q, p, wall);
      CurveGrows(cfg, s, q, wall, wall');
      assert Allowance(cfg, s', q, wall') == Allowance(cfg, s, q, wall');
      hide Allowance;
    }
  }

  /** The hypothesis of bounded bypass on steps i..j: one epoch, monotone walls, p waiting and not served. */
  ghost predicate Bypassed(cfg: Config, ws: seq<World>, acts: seq<Action>, i: nat, j: nat, p: Prio)
    requires Run(cfg, ws, acts) && i <= j < |ws|
  {
    && (forall k :: i <= k <= j ==> ws[k].st.epoch == ws[i].st.epoch && ws[k].st.usage.At(p) == ws[i].st.usage.At(p))
    && (forall k :: i <= k < j && acts[k].Writes() ==> ws[k].h.wallNow <= acts[k].e.wall)
    && (forall k :: i <= k < j ==> StillWaiting(cfg, ws[k], acts[k], p))
  }

  lemma BypassStep(cfg: Config, w: World, a: Action, p: Prio)
    requires cfg.Valid() && WorldOk(cfg, w) && Enabled(w, a) && StillWaiting(cfg, w, a, p)
    requires a.Writes() ==> Eligible(cfg, w.st, p, a.e.wall)
    ensures var s' := Next(cfg, w, a).st;
            s'.epoch == w.st.epoch ==>
              && s'.epochStart == w.st.epochStart
              && (s'.usage == w.st.usage || (a.Writes() && ServesWithinCurve(cfg, w.st, s', p, a.e.wall)))
  {
    hide Next, WorldOk, Inv, Eligible;
    DocumentOk(cfg, w);
    NextDocument(cfg, w, a);
    if a.PollOnce? {
      PollServes(cfg, w, a, p);
    } else if a.Writes() {
      OthersServeNobody(cfg, w, a);
    }
    hide TxnOf, StillWaiting;
  }

  /**
   * Bounded bypass: while class p waits, eligible at the start, unserved, in
   * one epoch, no lower class is served, and a higher class q ends with its
   * usage unchanged or at most one above its own curve.
   */
  lemma {:induction false} BoundedBypass(cfg: Config, ws: seq<World>, acts: seq<Action>, i: nat, j: nat, p: Prio)
    requires Run(cfg, ws, acts) && i <= j < |ws| && Bypassed(cfg, ws, acts, i, j, p)
    requires Eligible(cfg, ws[i].st, p, ws[i].h.wallNow)
    ensures forall q :: Bounded(cfg, ws[i].st, ws[j].st, q, p, ws[j].h.wallNow)
    ensures ws[j].st.epochStart == ws[i].st.epochStart && ws[i].h.wallNow <= ws[j].h.wallNow
    decreases j - i
  {
    hide Next, Enabled, WorldOk, Inv, Agrees, Refresh, Poll, Record, PrepareSend, Select, TxnOf, Evolves;
    hide Bounded, Eligible, StillWaiting, ServesWithinCurve;
    if i == j {
      BoundedStart(cfg, ws[i].st, p, ws[i].h.wallNow);
    } else {
      BoundedBypass(cfg, ws, acts, i, j - 1, p);
      var w, a := ws[j - 1], acts[j - 1];
      assert ws[j - 1 + 1] == Next(cfg, w, a);
      RunInvariant(cfg, ws, acts, j - 1);
      WallNow(cfg, w, a);
      var wall' := ws[j].h.wallNow;
      StaysEligible(cfg, ws[i].st, w.st, p, ws[i].h.wallNow, wall');
      BypassStep(cfg, w, a, p);
      BoundedStep(cfg, ws[i].st, w.st, ws[j].st, p, w.h.wallNow, wall');
    }
  }

  /** While class p waits, eligible, a grant goes to the best eligible class: nobody borrows. */
  lemma PollDoesNotBorrow(cfg: Config, w: World, a: Action, p: Prio)
    requires cfg.Valid() && Inv(cfg, w.st) && Enabled(w, a) && a.PollOnce? && StillWaiting(cfg, w, a, p)
    requires Eligible(cfg, w.st, p, a.e.wall) && Refresh(cfg, w.st, a.e).st.epoch == w.st.epoch
    requires Poll(cfg, w.st, w.waiters[a.r].prio, a.r, w.waiters[a.r].anchor, a.e, a.budget).result.Granted?
    ensures Selection(cfg, w, a).Registered?
    ensures BestEligible(cfg, Selection(cfg, w, a).t.st, a.e.wall) == Some((w.waiters[a.r].prio, a.r))
    ensures Rank(w.waiters[a.r].prio) <= Rank(p)
  {
    hide Refresh, Select, Eligible, Inv, BestEligible, Winner;
    var wt := w.waiters[a.r];
    var t := Refresh(cfg, w.st, a.e);
    RefreshUsage(cfg, w.st, a.e);
    match Register(cfg, t, wt.prio, a.r, wt.anchor, a.e)
    case Full =>
    case Stale =>
    case Registered(t', anchor) =>
      SameCurve(cfg, w.st, t'.st, p, a.e.wall);
      WinnerIsNotBelow(cfg, t'.st, p, a.e.wall);
      GrantedIsWinner(cfg, t', wt.prio, a.r, anchor, a.e, a.budget);
  }

  /**
   * No borrow while a class is bypassed: every grant returned on the way went
   * to a class that was eligible itself, the first such in priority order, and
   * not below p.
   */
  lemma NoBorrowInBypass(cfg: Config, ws: seq<World>, acts: seq<Action>, i: nat, j: nat, p: Prio, k: nat)
    requires Run(cfg, ws, acts) && i <= k < j < |ws| && Bypassed(cfg, ws, acts, i, j, p)
    requires Eligible(cfg, ws[i].st, p, ws[i].h.wallNow)
    requires Returned(cfg, ws[k], acts[k]).Some?
    ensures var w, a := ws[k], acts[k];
            && Selection(cfg, w, a).Registered?
            && BestEligible(cfg, Selection(cfg, w, a).t.st, a.e.wall) == Some((w.waiters[a.r].prio, a.r))
            && Rank(w.waiters[a.r].prio) <= Rank(p)
  {
    hide Next, Enabled, WorldOk, Inv, Agrees, Refresh, Poll, Record, PrepareSend, Select, Register, Issue, TryGrant,
      ClockRule, ProbePhase, ReconcilePhase, EvictPhase, FinishPoll, FinishReport, Evolves, SlotDiscipline,
      IssuedIds, HistoryOfRecord, HistoryOfRefresh, RunTxn;
    var w, a := ws[k], acts[k];
    assert Bypassed(cfg, ws, acts, i, k, p);
    BoundedBypass(cfg, ws, acts, i, k, p);
    StepOf(cfg, ws, acts, k);
    assert ws[k + 1].st.epoch == w.st.epoch && w.h.wallNow <= a.e.wall && StillWaiting(cfg, w, a, p);
    RunInvariant(cfg, ws, acts, k);
    hide Run, Bypassed, Eligible, StillWaiting, Bounded;
    DocumentOk(cfg, w);
    NextDocument(cfg, w, a);
    PollAfterRefresh(cfg, w.st, w.waiters[a.r].prio, a.r, w.waiters[a.r].anchor, a.e, a.budget);
    StaysEligible(cfg, ws[i].st, w.st, p, ws[i].h.wallNow, a.e.wall);
    PollDoesNotBorrow(cfg, w, a, p);
  }

  lemma BoundedStart(cfg: Config, s: State, p: Prio, wall: real)
    requires cfg.Valid()
    ensures forall q :: Bounded(cfg, s, s, q, p, wall)
  {
  }

  lemma StaysEligible(cfg: Config, s: State, s': State, p: Prio, wall: real, wall': real)
    requires cfg.Valid() && Eligible(cfg, s, p, wall) && wall <= wall'
    requires s'.usage.At(p) == s.usage.At(p) && s'.epochStart == s.epochStart
    ensures Eligible(cfg, s', p, wall')
  {
    CurveGrows(cfg, s, p, wall, wall');
    assert Allowance(cfg, s', p, wall') == Allowance(cfg, s, p, wall');
    hide Allowance;
  }
}
