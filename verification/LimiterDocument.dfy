/**
 * The working copy of the shared document inside one transaction, updated in
 * place. Every method is tied to the function of LimiterSpec that says what
 * it computes; selection loops are tied to the declarative FIFO head and to
 * the unique winner.
 */
module LimiterDocument {
  import opened Basics
  import opened LimiterConfig
  import opened LimiterState
  import opened LimiterSpec

  class Document {
    var lastWall: real
    var lastMono: Option<real>
    var boot: Boot
    var epoch: nat
    var epochStart: real
    var lastNum: nat
    var tokens: real
    var totalGrants: nat
    var epochGrants: nat
    var refillTotal: real
    var usage: PerPrio<nat>
    var pending: map<Rid, Demand>
    var grants: map<Gid, Grant>
    var breaker: Breaker
    var dirty: bool

    ghost function St(): State
      reads this
    {
      State(lastWall, lastMono, boot, epoch, epochStart, lastNum, tokens, totalGrants, epochGrants,
            refillTotal, usage, pending, grants, breaker)
    }

    ghost function View(): Txn
      reads this
    {
      Txn(St(), dirty)
    }

    /** Loading: a fresh working copy of the durable value, not yet dirty. */
    constructor (s: State)
      ensures View() == Txn(s, false)
    {
      lastWall, lastMono, boot := s.lastWall, s.lastMono, s.boot;
      epoch, epochStart, lastNum := s.epoch, s.epochStart, s.lastNum;
      tokens, totalGrants, epochGrants, refillTotal := s.tokens, s.totalGrants, s.epochGrants, s.refillTotal;
      usage, pending, grants, breaker := s.usage, s.pending, s.grants, s.breaker;
      dirty := false;
    }

    // ------------------------------------------------------------ breaker trip

    method ApplyOpen(cfg: Config, wall: real, bump: bool)
      requires cfg.Valid()
      modifies this
      ensures View() == Txn(LimiterSpec.ApplyOpen(cfg, old(St()), wall, bump), true)
    {
      var level := if bump then Min(breaker.level + 1, |cfg.cooldowns|) else breaker.level;
      SetBreaker(breaker.(state := OPEN, level := level, cooldownUntil := wall + cfg.CooldownFor(level),
                          streak := 0, probe := None));
      StartEpoch(wall);
    }

    method SetBreaker(b: Breaker)
      modifies this
      ensures View() == Txn(old(St()).(breaker := b), true)
    {
      breaker := b;
      dirty := true;
    }

    /** The counters of a new epoch. */
    method StartEpoch(wall: real)
      modifies this
      ensures View() == old(View()).(st := old(St()).(epoch := old(epoch) + 1, epochStart := wall, epochGrants := 0,
                                                      usage := PerPrio(0, 0, 0, 0)))
    {
      epoch := epoch + 1;
      epochStart := wall;
      epochGrants := 0;
      usage := PerPrio(0, 0, 0, 0);
    }

    // ---------------------------------------------------------- refresh phases

    method DropLeaked(e: Env)
      modifies this
      ensures View() == LimiterSpec.DropLeaked(old(View()), e)
    {
      var todo := e.leaked;
      while todo != {}
        invariant todo <= e.leaked
        invariant pending == old(pending) - (e.leaked - todo)
        invariant dirty == (old(dirty) || old(pending).Keys * (e.leaked - todo) != {})
        invariant unchanged(`lastWall, `lastMono, `boot, `epoch, `epochStart, `lastNum, `tokens, `totalGrants,
                            `epochGrants, `refillTotal, `usage, `grants, `breaker)
        decreases todo
      {
        var r :| r in todo;
        assert e.leaked - (todo - {r}) == (e.leaked - todo) + {r};
        if r in pending {
          assert r in old(pending).Keys * (e.leaked - (todo - {r}));
          pending := pending - {r};
          dirty := true;
        } else {
          assert old(pending).Keys * (e.leaked - (todo - {r})) == old(pending).Keys * (e.leaked - todo);
        }
        todo := todo - {r};
      }
      assert e.leaked - todo == e.leaked;
    }

    method ClockRule(cfg: Config, e: Env)
      requires cfg.Valid()
      modifies this
      ensures View() == LimiterSpec.ClockRule(cfg, old(View()), e)
    {
      if boot != e.boot {
        Rebaseline(e);
        boot := e.boot;
        return;
      }
      var dWall := e.wall - lastWall;
      var step: ClockStep;
      match lastMono {
        case None =>
          step := if dWall < 0.0 then Backward else if dWall > cfg.clockStepCap then Forward else Normal;
        case Some(m) =>
          var skew := dWall - (e.mono - m);
          step := if skew > cfg.clockStepCap then Forward else if skew < -cfg.clockStepCap then Backward else Normal;
      }
      match step {
        case Forward =>
          Rebaseline(e);
          if breaker.state == OPEN {
            breaker := breaker.(cooldownUntil :=
              RMax(breaker.cooldownUntil, e.wall + cfg.CooldownFor(breaker.level)));
          }
        case Backward =>
          Rebaseline(e);
        case Normal =>
          if dWall > 0.0 {
            Credit(cfg, dWall);
            lastWall := e.wall;
          }
          lastMono := Some(e.mono);
      }
    }

    /** Both clocks are read anew, and no time is credited. */
    method Rebaseline(e: Env)
      modifies this
      ensures View() == Txn(LimiterSpec.Rebaseline(old(St()), e), true)
    {
      lastWall := e.wall;
      lastMono := Some(e.mono);
      dirty := true;
    }

    /** Tokens for `delta` seconds, up to the burst. */
    method Credit(cfg: Config, delta: real)
      modifies this
      ensures View() == old(View()).(st := old(St()).(tokens := old(tokens) + Applied(cfg, old(tokens), delta),
                                                      refillTotal := old(refillTotal) + Applied(cfg, old(tokens), delta)))
    {
      var applied := RMin(cfg.gRps * delta, RMax(0.0, cfg.burst - tokens));
      tokens := tokens + applied;
      refillTotal := refillTotal + applied;
    }

    method PrunePending(e: Env)
      modifies this
      ensures View() == LimiterSpec.PrunePending(old(View()), e)
    {
      ghost var before := pending;
      var todo := pending.Keys;
      NothingPruned(before, e);
      while todo != {}
        invariant todo <= before.Keys
        invariant pending == Unlapsed(before, todo, e)
        invariant dirty == (old(dirty) || pending != before)
        invariant unchanged(`lastWall, `lastMono, `boot, `epoch, `epochStart, `lastNum, `tokens, `totalGrants,
                            `epochGrants, `refillTotal, `usage, `grants, `breaker)
        decreases todo
      {
        hide Unlapsed, Lapsed;
        var r :| r in todo;
        PruneOne(before, todo, r, e);
        if Lapsed(pending[r], e) {
          pending := pending - {r};
          dirty := true;
        }
        todo := todo - {r};
      }
    }

    method ResolveDeadProbe(cfg: Config, p: Probe, wall: real)
      requires cfg.Valid()
      modifies this
      ensures View() == Txn(LimiterSpec.ResolveDeadProbe(cfg, old(St()), p, wall), true)
    {
      if p.holder in grants && grants[p.holder].outcome == None {
        grants := grants[p.holder := grants[p.holder].(outcome := Some(OrphanOutcome(p.marker)))];
      }
      breaker := breaker.(probe := None);
      if p.marker {
        ApplyOpen(cfg, wall, false);
        breaker := breaker.(unknownCount := breaker.unknownCount + 1);
      }
      dirty := true;
    }

    method ProbePhase(cfg: Config, e: Env)
      requires cfg.Valid()
      modifies this
      ensures View() == LimiterSpec.ProbePhase(cfg, old(View()), e)
    {
      match breaker.probe {
        case None =>
        case Some(p) =>
          if p.boot != e.boot || !e.witnessAlive {
            ResolveDeadProbe(cfg, p, e.wall);
          } else if e.wall >= p.stallUntil && !p.stalled {
            breaker := breaker.(probe := Some(p.(stalled := true)));
            dirty := true;
          }
      }
    }

    method CooldownPhase(e: Env)
      modifies this
      ensures View() == LimiterSpec.CooldownPhase(old(View()), e)
    {
      if breaker.state == OPEN && e.wall >= breaker.cooldownUntil {
        breaker := breaker.(state := RECOVERY);
        breaker := breaker.(probe := None);
        breaker := breaker.(streak := 0);
        dirty := true;
      }
    }

    method ReconcilePhase(e: Env)
      modifies this
      ensures View() == LimiterSpec.ReconcilePhase(old(View()), e)
    {
      ghost var before := grants;
      var todo := grants.Keys;
      NothingReconciled(before, e);
      while todo != {}
        invariant todo <= before.Keys
        invariant grants == ReconciledBut(before, todo, e)
        invariant dirty == (old(dirty) || grants != before)
        invariant unchanged(`lastWall, `lastMono, `boot, `epoch, `epochStart, `lastNum, `tokens, `totalGrants,
                            `epochGrants, `refillTotal, `usage, `pending, `breaker)
        decreases todo
      {
        hide ReconciledBut, Orphaned, OrphanOutcome;
        var g :| g in todo;
        ReconcileOne(before, todo, g, e);
        if Orphaned(grants[g], e) {
          grants := grants[g := grants[g].(outcome := Some(OrphanOutcome(grants[g].sent)))];
          dirty := true;
        }
        todo := todo - {g};
      }
      assert ReconciledBut(before, {}, e) == map g | g in before :: Reconciled(before[g], e);
    }

    method EvictPhase(cfg: Config, e: Env)
      modifies this
      ensures View() == LimiterSpec.EvictPhase(cfg, old(View()), e)
    {
      ghost var before := grants;
      var todo := grants.Keys;
      NothingEvicted(cfg, before, e);
      while todo != {}
        invariant todo <= before.Keys
        invariant grants == Unexpired(cfg, before, todo, e)
        invariant dirty == (old(dirty) || grants != before)
        invariant unchanged(`lastWall, `lastMono, `boot, `epoch, `epochStart, `lastNum, `tokens, `totalGrants,
                            `epochGrants, `refillTotal, `usage, `pending, `breaker)
        decreases todo
      {
        hide Unexpired, Expired;
        var g :| g in todo;
        EvictOne(cfg, before, todo, g, e);
        if Expired(cfg, grants[g], e) {
          grants := grants - {g};
          dirty := true;
        }
        todo := todo - {g};
      }
    }

    method Refresh(cfg: Config, e: Env)
      requires cfg.Valid() && !dirty
      modifies this
      ensures View() == LimiterSpec.Refresh(cfg, old(St()), e)
    {
      DropLeaked(e);
      ClockRule(cfg, e);
      PrunePending(e);
      ProbePhase(cfg, e);
      CooldownPhase(e);
      ReconcilePhase(e);
      EvictPhase(cfg, e);
    }

    // --------------------------------------------------------------- selection

    /** One pass over the queue, keeping the smallest key of the class. */
    method FindHead(p: Prio) returns (best: Option<Rid>)
      ensures best == HeadOf(pending, p)
    {
      best := None;
      var todo := pending.Keys;
      while todo != {}
        invariant todo <= pending.Keys
        invariant best == None ==> forall r :: r in pending && pending[r].prio == p ==> r in todo
        invariant best.Some? ==> best.value in pending && pending[best.value].prio == p
        invariant best.Some? ==>
          forall r :: r in pending && pending[r].prio == p && r !in todo && r != best.value ==>
            Before(pending[best.value], best.value, pending[r], r)
        decreases todo
      {
        var r :| r in todo;
        if pending[r].prio == p && (best == None || Before(pending[r], r, pending[best.value], best.value)) {
          best := Some(r);
        }
        todo := todo - {r};
      }
      if best.Some? {
        assert IsHead(pending, p, best.value);
        HeadIsUnique(pending, p, best.value);
      }
    }

    /** Strict priority order among the eligible classes with a waiter. */
    method FindBestEligible(cfg: Config, wall: real) returns (best: Option<(Prio, Rid)>)
      requires cfg.Valid()
      ensures best == BestEligible(cfg, St(), wall)
    {
      for i := 0 to 4
        invariant forall j :: 0 <= j < i ==> !Servable(cfg, St(), PRIORITY_ORDER[j], wall)
      {
        var p := PRIORITY_ORDER[i];
        var head := FindHead(p);
        if head.Some? && usage.At(p) as real <= cfg.Share(p) * RMax(0.0, wall - epochStart) + cfg.Credit(p) {
          assert Servable(cfg, St(), p, wall);
          EarlierNotServable(cfg, St(), wall, i);
          return Some((p, head.value));
        }
        assert !Servable(cfg, St(), p, wall);
      }
      EarlierNotServable(cfg, St(), wall, 4);
      return None;
    }

    method CountWaitingClasses() returns (n: nat)
      ensures n == WaitingClasses(St())
    {
      var h0 := FindHead(P0);
      var h1 := FindHead(P1);
      var h2 := FindHead(P2);
      var h3 := FindHead(P3);
      n := (if h0.Some? then 1 else 0) + (if h1.Some? then 1 else 0)
         + (if h2.Some? then 1 else 0) + (if h3.Some? then 1 else 0);
    }

    /** Usage over allowance, the allowance floored so that the quotient exists. */
    method RatioOf(cfg: Config, p: Prio, wall: real) returns (r: real)
      requires cfg.Valid()
      ensures r == Ratio(cfg, St(), p, wall)
    {
      var allowance := cfg.Share(p) * RMax(0.0, wall - epochStart) + cfg.Credit(p);
      r := usage.At(p) as real / RMax(allowance, 0.000000001);
    }

    /** The class least over its curve among those that leave a token for every other waiter's class. */
    method FindBorrower(cfg: Config, wall: real) returns (best: Option<(Prio, Rid)>)
      requires cfg.Valid()
      ensures best == BorrowCandidate(cfg, St(), wall)
    {
      hide Ratio, HeadOf, WaitingClasses;
      best := None;
      var ratio := 0.0;
      var classes := CountWaitingClasses();
      for i := 0 to 4
        invariant best == None ==> forall j :: 0 <= j < i ==> !CanBorrow(St(), PRIORITY_ORDER[j])
        invariant best.Some? ==>
          var p := best.value.0;
          && Rank(p) < i && CanBorrow(St(), p) && best.value.1 == HeadOf(pending, p).value
          && ratio == Ratio(cfg, St(), p, wall)
          && forall j :: 0 <= j < i && j != Rank(p) && CanBorrow(St(), PRIORITY_ORDER[j]) ==>
               || ratio < Ratio(cfg, St(), PRIORITY_ORDER[j], wall)
               || (ratio == Ratio(cfg, St(), PRIORITY_ORDER[j], wall) && Rank(p) < j)
      {
        var p := PRIORITY_ORDER[i];
        var head := FindHead(p);
        if head.Some? && tokens - 1.0 >= classes as real - 1.0 {
          assert Rank(p) == i;
          var r := RatioOf(cfg, p, wall);
          if best == None || r < ratio {
            best := Some((p, head.value));
            ratio := r;
          }
        }
      }
      if best.Some? {
        var p := best.value.0;
        forall q | CanBorrow(St(), q) && q != p
          ensures ratio < Ratio(cfg, St(), q, wall) || (ratio == Ratio(cfg, St(), q, wall) && Rank(p) < Rank(q))
        {
          assert PRIORITY_ORDER[Rank(q)] == q && Rank(q) != Rank(p);
        }
        assert IsBorrower(cfg, St(), p, wall);
        BorrowerIsUnique(cfg, St(), wall, p);
      } else {
        forall q
          ensures !CanBorrow(St(), q)
        {
          assert PRIORITY_ORDER[Rank(q)] == q;
        }
      }
    }

    /** A token, a free slot in recovery, and the request's turn. */
    method IsTurn(cfg: Config, p: Prio, r: Rid, wall: real) returns (turn: bool)
      requires cfg.Valid()
      ensures turn == MayGrant(cfg, St(), p, r, wall)
    {
      if tokens < 1.0 {
        return false;
      }
      if breaker.state == RECOVERY && breaker.probe != None {
        return false;
      }
      var cand := FindBestEligible(cfg, wall);
      if cand.Some? {
        return cand.value == (p, r);
      }
      var borrower := FindBorrower(cfg, wall);
      return borrower == Some((p, r));
    }

    /** One token and one use. */
    method SpendToken(p: Prio)
      modifies this
      ensures View() == Txn(old(St()).(tokens := old(tokens) - 1.0, usage := old(usage).Put(p, old(usage).At(p) + 1)), true)
    {
      tokens := tokens - 1.0;
      usage := usage.Put(p, usage.At(p) + 1);
      dirty := true;
    }

    /** One id, counted for the epoch and for good. */
    method CountGrant()
      modifies this
      ensures View() == old(View()).(st := old(St()).(lastNum := old(lastNum) + 1, epochGrants := old(epochGrants) + 1,
                                                      totalGrants := old(totalGrants) + 1))
    {
      lastNum := lastNum + 1;
      epochGrants := epochGrants + 1;
      totalGrants := totalGrants + 1;
    }

    method CommitGrant(cfg: Config, p: Prio, r: Rid, e: Env)
      modifies this
      ensures View() == Txn(Issue(cfg, old(St()), p, r, e), true)
    {
      SpendToken(p);
      CountGrant();
      var gid := Gid(epoch, lastNum);
      var recovery := breaker.state == RECOVERY;
      grants := grants[gid := Grant(p, e.wall, None, recovery, e.pid, e.boot, false)];
      if recovery {
        breaker := breaker.(probe := Some(Probe(gid, e.pid, e.boot, e.wall + cfg.probeLease, false, false)));
      }
      pending := pending - {r};
    }

    /** Grants the request if it is its turn; the refusals leave the working copy as it was. */
    method TryGrant(cfg: Config, p: Prio, r: Rid, e: Env) returns (res: GrantTry)
      requires cfg.Valid()
      modifies this
      ensures res == LimiterSpec.TryGrant(cfg, old(St()), p, r, e)
      ensures View() == if res.Issued? then Txn(Issue(cfg, old(St()), p, r, e), true) else old(View())
    {
      var turn := IsTurn(cfg, p, r, e.wall);
      if !turn {
        return NoGrant;
      }
      if |grants| >= cfg.registryCapacity {
        return Refused(RegistryCapacity);
      }
      if breaker.state == RECOVERY && e.witnessFails {
        return Refused(WitnessFailed);
      }
      res := Issued(Gid(epoch, lastNum + 1), breaker.state == RECOVERY);
      CommitGrant(cfg, p, r, e);
    }

    // ----------------------------------------------------------------- acquire

    method DropLocked(r: Rid)
      modifies this
      ensures View() == LimiterSpec.Drop(old(View()), r)
    {
      if r in pending {
        pending := pending - {r};
        dirty := true;
      }
    }

    /** Registers, re-registers or renews the demand; None when it may not go on. */
    method RegisterDemand(cfg: Config, p: Prio, r: Rid, anchor: Option<real>, e: Env) returns (reg: Registration)
      modifies this
      ensures reg == LimiterSpec.Register(cfg, old(View()), p, r, anchor, e)
      ensures View() == if reg.Registered? then reg.t else old(View())
    {
      var txn: Txn;
      if anchor == None {
        if |pending| >= cfg.pendingCapacity {
          return Full;
        }
        Enqueue(r, Demand(p, e.pid, e.boot, e.wall, RMin(e.wall + cfg.demandTtl, e.wall + cfg.livenessTtl)));
        txn := ToTxn();
        return Registered(txn, e.wall);
      }
      if r !in pending {
        if e.wall - anchor.value >= cfg.demandTtl {
          return Stale;
        }
        if |pending| >= cfg.pendingCapacity {
          return Full;
        }
        Enqueue(r, Demand(p, e.pid, e.boot, anchor.value,
                          RMin(anchor.value + cfg.demandTtl, e.wall + cfg.livenessTtl)));
      } else if pending[r].expireWall - e.wall < cfg.livenessTtl / 2.0 {
        var d := pending[r];
        Enqueue(r, d.(expireWall := RMin(d.registeredWall + cfg.demandTtl, e.wall + cfg.livenessTtl)));
      }
      txn := ToTxn();
      return Registered(txn, anchor.value);
    }

    method Enqueue(r: Rid, d: Demand)
      modifies this
      ensures View() == Txn(old(St()).(pending := old(pending)[r := d]), true)
    {
      pending := pending[r := d];
      dirty := true;
    }

    method ToTxn() returns (t: Txn)
      ensures t == View()
    {
      t := Txn(State(lastWall, lastMono, boot, epoch, epochStart, lastNum, tokens, totalGrants, epochGrants,
                     refillTotal, usage, pending, grants, breaker), dirty);
    }

    /** What a registered request gets from this transaction. */
    method SelectTurn(cfg: Config, p: Prio, r: Rid, anchor: real, e: Env, budget: real) returns (result: PollResult)
      requires cfg.Valid()
      modifies this
      ensures Polled(View(), result, Some(anchor)) == LimiterSpec.Select(cfg, old(View()), p, r, anchor, e, budget)
    {
      if breaker.state == OPEN {
        if p == P3 {
          DropLocked(r);
          return BreakerIsOpen;
        }
        if RMax(0.0, breaker.cooldownUntil - e.wall) >= budget {
          DropLocked(r);
          return CooldownExceedsDeadline;
        }
        return KeepWaiting;
      }
      var res := TryGrant(cfg, p, r, e);
      match res {
        case NoGrant => return KeepWaiting;
        case Refused(why) => return Raised(why);
        case Issued(gid, probe) => return Granted(gid, probe);
      }
    }

    /** The body of one acquire transaction on a freshly loaded document. */
    method AcquirePoll(cfg: Config, p: Prio, r: Rid, anchor: Option<real>, e: Env, budget: real)
      returns (result: PollResult, anchor': Option<real>)
      requires cfg.Valid() && !dirty
      modifies this
      ensures Polled(View(), result, anchor') == LimiterSpec.Poll(cfg, old(St()), p, r, anchor, e, budget)
    {
      Refresh(cfg, e);
      var reg := RegisterDemand(cfg, p, r, anchor, e);
      match reg {
        case Full =>
          return Raised(PendingCapacity), anchor;
        case Stale =>
          DropLocked(r);
          return DemandExpired, anchor;
        case Registered(_, a) =>
          result := SelectTurn(cfg, p, r, a, e, budget);
          anchor' := Some(a);
      }
    }

    // ------------------------------------------------------ prepare and record

    method PrepareSend(cfg: Config, g: Gid, e: Env) returns (send: bool)
      requires cfg.Valid() && !dirty
      modifies this
      ensures (View(), send) == LimiterSpec.PrepareSend(LimiterSpec.Refresh(cfg, old(St()), e), g)
    {
      Refresh(cfg, e);
      if g !in grants {
        dirty := true;
        return false;
      }
      if grants[g].outcome != None {
        return false;
      }
      if g.epoch != epoch {
        Revoke(g);
        return false;
      }
      if grants[g].probe {
        if breaker.probe == None || breaker.probe.value.holder != g {
          Revoke(g);
          return false;
        }
        if !breaker.probe.value.marker {
          SetBreaker(breaker.(probe := Some(breaker.probe.value.(marker := true))));
        }
      }
      if !grants[g].sent {
        MarkSent(g);
      }
      return true;
    }

    method Revoke(g: Gid)
      requires g in grants && grants[g].outcome == None
      modifies this
      ensures View() == Txn(old(St()).(grants := CloseGrant(old(grants), g, REVOKED)), true)
    {
      grants := grants[g := grants[g].(outcome := Some(REVOKED))];
      dirty := true;
    }

    method MarkSent(g: Gid)
      requires g in grants
      modifies this
      ensures View() == Txn(LimiterSpec.MarkSent(old(St()), g), true)
    {
      grants := grants[g := grants[g].(sent := true)];
      dirty := true;
    }

    method RecordResult(cfg: Config, g: Gid, o: Outcome, e: Env) returns (result: RecordResult)
      requires cfg.Valid() && !dirty
      modifies this
      ensures (View(), result) == LimiterSpec.Record(cfg, LimiterSpec.Refresh(cfg, old(St()), e), g, o, e.wall)
    {
      Refresh(cfg, e);
      if g !in grants {
        dirty := true;
        return UNKNOWN_GRANT;
      }
      if grants[g].outcome != None {
        return DUPLICATE;
      }
      grants := grants[g := grants[g].(outcome := Some(o))];
      dirty := true;
      ApplyOutcome(cfg, g, o, e.wall);
      return APPLIED;
    }

    method ApplyOutcome(cfg: Config, g: Gid, o: Outcome, wall: real)
      requires cfg.Valid() && dirty
      modifies this
      ensures View() == Txn(LimiterSpec.ApplyOutcome(cfg, old(St()), g, o, wall), true)
    {
      var ownsSlot := breaker.probe.Some? && breaker.probe.value.holder == g;
      if o == RATE_LIMIT {
        if g.epoch == epoch {
          ApplyOpen(cfg, wall, true);
        }
      } else if o == OK {
        if g.epoch == epoch {
          if ownsSlot {
            breaker := breaker.(probe := None);
          }
          breaker := breaker.(streak := breaker.streak + 1);
          if breaker.state == RECOVERY && breaker.streak >= cfg.recoveryTarget {
            breaker := breaker.(state := CLOSED, level := 0, streak := 0);
          }
        }
      } else if ownsSlot {
        breaker := breaker.(probe := None);
      }
    }
  }

  // ------------------------------------------------------ the loops over maps

  /** The queue once all but the demands still to do have been looked at. */
  ghost function Unlapsed(before: map<Rid, Demand>, todo: set<Rid>, e: Env): map<Rid, Demand> {
    map r | r in before && (r in todo || !Lapsed(before[r], e)) :: before[r]
  }

  lemma NothingPruned(before: map<Rid, Demand>, e: Env)
    ensures Unlapsed(before, before.Keys, e) == before
  {
  }

  lemma PruneOne(before: map<Rid, Demand>, todo: set<Rid>, r: Rid, e: Env)
    requires r in todo && r in before
    ensures var pending := Unlapsed(before, todo, e);
            && r in pending && pending[r] == before[r]
            && (if Lapsed(pending[r], e) then
                  Unlapsed(before, todo - {r}, e) == pending - {r} && pending - {r} != before
                else Unlapsed(before, todo - {r}, e) == pending)
  {
    hide Lapsed;
    assert r !in Unlapsed(before, todo, e) - {r};
  }

  /** The registry once all but the records still to do have been looked at. */
  ghost function ReconciledBut(before: map<Gid, Grant>, todo: set<Gid>, e: Env): map<Gid, Grant> {
    map g | g in before :: if g in todo then before[g] else Reconciled(before[g], e)
  }

  lemma NothingReconciled(before: map<Gid, Grant>, e: Env)
    ensures ReconciledBut(before, before.Keys, e) == before
  {
  }

  lemma ReconcileOne(before: map<Gid, Grant>, todo: set<Gid>, g: Gid, e: Env)
    requires g in todo && g in before
    ensures var grants := ReconciledBut(before, todo, e);
            && g in grants && grants[g] == before[g]
            && (if Orphaned(grants[g], e) then
                  var closed := grants[g := grants[g].(outcome := Some(OrphanOutcome(grants[g].sent)))];
                  ReconciledBut(before, todo - {g}, e) == closed && closed != before
                else ReconciledBut(before, todo - {g}, e) == grants)
  {
    hide OrphanOutcome;
    var grants := ReconciledBut(before, todo, e);
    if Orphaned(before[g], e) {
      assert grants[g := Reconciled(before[g], e)][g] != before[g];
    }
  }

  /** The registry once all but the records still to do have been looked at for their age. */
  ghost function Unexpired(cfg: Config, before: map<Gid, Grant>, todo: set<Gid>, e: Env): map<Gid, Grant> {
    map g | g in before && (g in todo || !Expired(cfg, before[g], e)) :: before[g]
  }

  lemma NothingEvicted(cfg: Config, before: map<Gid, Grant>, e: Env)
    ensures Unexpired(cfg, before, before.Keys, e) == before
  {
  }

  lemma EvictOne(cfg: Config, before: map<Gid, Grant>, todo: set<Gid>, g: Gid, e: Env)
    requires g in todo && g in before
    ensures var grants := Unexpired(cfg, before, todo, e);
            && g in grants && grants[g] == before[g]
            && (if Expired(cfg, grants[g], e) then
                  Unexpired(cfg, before, todo - {g}, e) == grants - {g} && grants - {g} != before
                else Unexpired(cfg, before, todo - {g}, e) == grants)
  {
    hide Expired;
    assert g !in Unexpired(cfg, before, todo, e) - {g};
  }

  // ------------------------------------------------- facts about the selection

  /** A class has one head: the key order is total on distinct requests. */
  lemma HeadIsUnique(pending: map<Rid, Demand>, p: Prio, r: Rid)
    requires IsHead(pending, p, r)
    ensures HeadOf(pending, p) == Some(r)
  {
    forall r' | IsHead(pending, p, r')
      ensures r' == r
    {
    }
  }

  /** In priority order, the first servable class is the best one. */
  lemma EarlierNotServable(cfg: Config, s: State, wall: real, i: nat)
    requires cfg.Valid() && i <= 4
    requires forall j :: 0 <= j < i ==> !Servable(cfg, s, PRIORITY_ORDER[j], wall)
    requires i < 4 ==> Servable(cfg, s, PRIORITY_ORDER[i], wall)
    ensures i < 4 ==> BestEligible(cfg, s, wall) == Some((PRIORITY_ORDER[i], HeadOf(s.pending, PRIORITY_ORDER[i]).value))
    ensures i == 4 ==> BestEligible(cfg, s, wall) == None
  {
    assert i > 0 ==> !Servable(cfg, s, PRIORITY_ORDER[0], wall);
    assert i > 1 ==> !Servable(cfg, s, PRIORITY_ORDER[1], wall);
    assert i > 2 ==> !Servable(cfg, s, PRIORITY_ORDER[2], wall);
    assert i > 3 ==> !Servable(cfg, s, PRIORITY_ORDER[3], wall);
  }

  lemma BorrowerIsUnique(cfg: Config, s: State, wall: real, p: Prio)
    requires cfg.Valid() && IsBorrower(cfg, s, p, wall)
    ensures BorrowCandidate(cfg, s, wall) == Some((p, HeadOf(s.pending, p).value))
  {
    forall q | IsBorrower(cfg, s, q, wall)
      ensures q == p
    {
    }
  }
}
