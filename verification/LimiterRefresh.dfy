/**
 * What one refresh does, field by field: who stays in the queue, what becomes
 * of each record, the breaker and the bucket, and when a write is needed.
 */
module LimiterRefresh {
  import opened Basics
  import opened LimiterConfig
  import opened LimiterState
  import opened LimiterSpec
  import opened LimiterInvariants
  import opened LimiterProtocol
  import opened LimiterHistory
  import opened LimiterWorld
  import opened LimiterSafety
  import opened LimiterSlot
  import opened LimiterRate

  // ----------------------------------------------------------------- the queue

  /**
   * A demand outlives a refresh, unchanged, exactly when it is not leaked, has
   * not lapsed, was made in this boot, and its owner is this process or is
   * not known to be dead.
   */
  lemma QueueAfterRefresh(cfg: Config, s: State, e: Env, r: Rid)
    requires cfg.Valid()
    ensures var q := Refresh(cfg, s, e).st.pending;
            && (r in q <==>
                  && r in s.pending && r !in e.leaked
                  && s.pending[r].expireWall >= e.wall && s.pending[r].boot == e.boot
                  && !(s.pending[r].pid != e.pid && s.pending[r].pid in e.liveness
                       && e.liveness[s.pending[r].pid] == DEAD))
            && (r in q ==> q[r] == s.pending[r])
  {
    var k := Steps(cfg, s, e);
    ClockFrames(cfg, k.leaked, e);
    ProbeFrames(cfg, k.pruned, e);
    TailFrames(cfg, k.probed, e);
    hide ClockRule, ProbePhase, CooldownPhase, ReconcilePhase, EvictPhase;
    assert k.clock.st.pending == s.pending - e.leaked;
    assert Refresh(cfg, s, e).st.pending == k.pruned.st.pending;
  }

  /** x is queued before r: registered earlier, or at the same wall with the smaller id. */
  predicate Precedes(pending: map<Rid, Demand>, x: Rid, r: Rid)
    requires x in pending && r in pending
  {
    || pending[x].registeredWall < pending[r].registeredWall
    || (pending[x].registeredWall == pending[r].registeredWall && x < r)
  }

  /**
   * Abandoned demands block nobody: when every demand of the class before a
   * live one has lapsed, comes from another boot, belongs to a dead process or
   * is leaked, the refresh leaves the live one at the head of its class.
   */
  lemma AbandonedDemandsGiveWay(cfg: Config, s: State, e: Env, r: Rid)
    requires cfg.Valid() && r in Refresh(cfg, s, e).st.pending && r in s.pending
    requires forall x :: x in s.pending && s.pending[x].prio == s.pending[r].prio && Precedes(s.pending, x, r) ==>
               || x in e.leaked || s.pending[x].expireWall < e.wall || s.pending[x].boot != e.boot
               || (s.pending[x].pid != e.pid && s.pending[x].pid in e.liveness && e.liveness[s.pending[x].pid] == DEAD)
    ensures IsHead(Refresh(cfg, s, e).st.pending, s.pending[r].prio, r)
  {
    var q := Refresh(cfg, s, e).st.pending;
    QueueAfterRefresh(cfg, s, e, r);
    forall x | x in q && q[x].prio == s.pending[r].prio && x != r
      ensures Before(q[r], r, q[x], x)
    {
      QueueAfterRefresh(cfg, s, e, x);
      assert !Precedes(s.pending, x, r);
    }
    hide Refresh;
  }

  // -------------------------------------------------------------- the registry

  lemma TailRecord(cfg: Config, t: Txn, e: Env, g: Gid)
    ensures var m := EvictPhase(cfg, ReconcilePhase(CooldownPhase(t, e), e), e).st.grants;
            if g !in t.st.grants then g !in m
            else
              var b := t.st.grants[g];
              var dead := b.boot != e.boot || (b.pid != e.pid && b.pid in e.liveness && e.liveness[b.pid] == DEAD);
              var after := if b.outcome == None && !b.probe && dead
                           then Some(if b.sent then UNKNOWN else NOT_SENT) else b.outcome;
              && (g in m <==> after == None || e.wall - b.issuedWall < cfg.maxLifetime)
              && (g in m ==> m[g] == b.(outcome := after))
  {
    var c := CooldownPhase(t, e);
    assert c.st.grants == t.st.grants;
    hide CooldownPhase;
    if g in t.st.grants {
      assert ReconcilePhase(c, e).st.grants[g] == Reconciled(t.st.grants[g], e);
    }
  }

  /** The probe phase closes the record of a gone holder, by its send marker, and touches no other. */
  lemma ProbeRecord(cfg: Config, t: Txn, e: Env, g: Gid)
    requires cfg.Valid() && SlotDiscipline(t.st)
    ensures var m := ProbePhase(cfg, t, e).st.grants;
            && (g in m <==> g in t.st.grants)
            && (g in m ==>
                  var b := t.st.grants[g];
                  var gone := HoldsSlot(t.st, g) && (t.st.breaker.probe.value.boot != e.boot || !e.witnessAlive);
                  && (gone ==> b.probe && b.outcome == None)
                  && m[g] == if gone then b.(outcome := Some(if b.sent then UNKNOWN else NOT_SENT)) else b)
  {
  }

  /**
   * What becomes of a record. An open one is closed when its owner is gone,
   * which for the slot's holder is said by its boot and its witness and for an
   * ordinary grant by its boot and the liveness answer: as UNKNOWN once its
   * send marker is set, as NOT_SENT before. A record leaves exactly when it is
   * terminal by then and past its retention; nothing else about it changes.
   */
  lemma RecordAfterRefresh(cfg: Config, s: State, e: Env, g: Gid)
    requires cfg.Valid() && Inv(cfg, s)
    ensures var m := Refresh(cfg, s, e).st.grants;
            if g !in s.grants then g !in m
            else
              var b := s.grants[g];
              var gone := HoldsSlot(s, g) && (s.breaker.probe.value.boot != e.boot || !e.witnessAlive);
              var dead := b.boot != e.boot || (b.pid != e.pid && b.pid in e.liveness && e.liveness[b.pid] == DEAD);
              var after := if b.outcome == None && (gone || (!b.probe && dead))
                           then Some(if b.sent then UNKNOWN else NOT_SENT) else b.outcome;
              && (g in m <==> after == None || e.wall - b.issuedWall < cfg.maxLifetime)
              && (g in m ==> m[g] == b.(outcome := after))
  {
    HeadFrames(cfg, s, e);
    var t := Steps(cfg, s, e).pruned;
    InvIds(cfg, s);
    assert SlotDiscipline(t.st) by { SlotFrame(s, t.st); }
    hide Inv, PrunePending, ClockRule, DropLeaked;
    assert t.st.breaker.probe == s.breaker.probe && t.st.grants == s.grants;
    ProbeRecord(cfg, t, e, g);
    TailRecord(cfg, ProbePhase(cfg, t, e), e, g);
    hide ProbePhase, CooldownPhase, ReconcilePhase, EvictPhase, SlotDiscipline;
  }

  // --------------------------------------------------------------- the breaker

  /** The clocks say that time has passed ordinarily: no reboot, and the wall within the cap of the monotonic clock. */
  predicate OrdinaryTime(cfg: Config, s: State, e: Env) {
    var elapsed := e.wall - s.lastWall;
    && s.boot == e.boot
    && (match s.lastMono
        case None => 0.0 <= elapsed <= cfg.clockStepCap
        case Some(m) => -cfg.clockStepCap <= elapsed - (e.mono - m) <= cfg.clockStepCap)
  }

  /** The wall has stepped forward in this boot, past the cap. */
  predicate SteppedForward(cfg: Config, s: State, e: Env) {
    var elapsed := e.wall - s.lastWall;
    && s.boot == e.boot
    && (match s.lastMono
        case None => elapsed >= 0.0 && elapsed > cfg.clockStepCap
        case Some(m) => elapsed - (e.mono - m) > cfg.clockStepCap)
  }

  /** The clock rule's effect on the breaker: a forward step re-arms an open one with the full rung of its level. */
  lemma ClockBreaker(cfg: Config, t: Txn, e: Env)
    requires cfg.Valid()
    requires t.st.breaker.state == OPEN ==> 1 <= t.st.breaker.level <= |cfg.cooldowns|
    ensures var b := t.st.breaker;
            ClockRule(cfg, t, e).st.breaker ==
            if b.state == OPEN && SteppedForward(cfg, t.st, e)
            then b.(cooldownUntil := RMax(b.cooldownUntil, e.wall + cfg.cooldowns[b.level - 1]))
            else b
  {
    hide Applied;
  }

  lemma ProbeBreaker(cfg: Config, t: Txn, e: Env)
    requires cfg.Valid() && (t.st.breaker.probe.Some? ==> 1 <= t.st.breaker.level <= |cfg.cooldowns|)
    ensures var b := t.st.breaker;
            ProbePhase(cfg, t, e).st.breaker ==
            if b.probe == None then b
            else
              var p := b.probe.value;
              if p.boot != e.boot || !e.witnessAlive then
                if p.marker
                then Breaker(OPEN, b.level, e.wall + cfg.cooldowns[b.level - 1], 0, b.unknownCount + 1, None)
                else b.(probe := None)
              else b.(probe := Some(p.(stalled := p.stalled || e.wall >= p.stallUntil)))
  {
  }

  lemma CooldownBreaker(cfg: Config, t: Txn, e: Env)
    ensures var b := t.st.breaker;
            EvictPhase(cfg, ReconcilePhase(CooldownPhase(t, e), e), e).st.breaker ==
            if b.state == OPEN && b.cooldownUntil <= e.wall
            then b.(state := RECOVERY, probe := None, streak := 0) else b
  {
  }

  /**
   * What a refresh makes of the breaker. Closed it stays as it is. Open it
   * waits for the end of its cooldown, which a forward step of the wall moves
   * to a full rung of its level from now. In recovery a gone holder empties
   * the slot, and reopens the breaker with the full rung of the same level if
   * its send marker was set; an overdue holder is only marked. A cooldown that
   * is over by then starts recovery in the same refresh.
   */
  lemma BreakerAfterRefresh(cfg: Config, s: State, e: Env)
    requires cfg.Valid() && Inv(cfg, s)
    ensures var b, b' := s.breaker, Refresh(cfg, s, e).st.breaker;
            match b.state
            case CLOSED => b' == b
            case OPEN =>
              var until := if SteppedForward(cfg, s, e)
                           then RMax(b.cooldownUntil, e.wall + cfg.cooldowns[b.level - 1]) else b.cooldownUntil;
              b' == if until <= e.wall then b.(state := RECOVERY, cooldownUntil := until, streak := 0)
                    else b.(cooldownUntil := until)
            case RECOVERY =>
              match b.probe
              case None => b' == b
              case Some(p) =>
                if p.boot == e.boot && e.witnessAlive then
                  b' == b.(probe := Some(p.(stalled := p.stalled || e.wall >= p.stallUntil)))
                else if !p.marker then
                  b' == b.(probe := None)
                else
                  var rung := cfg.cooldowns[b.level - 1];
                  b' == Breaker(if rung <= 0.0 then RECOVERY else OPEN, b.level, e.wall + rung, 0, b.unknownCount + 1, None)
  {
    var k := Steps(cfg, s, e);
    assert BreakerShape(cfg, s.breaker);
    ClockBreaker(cfg, k.leaked, e);
    ProbeBreaker(cfg, k.pruned, e);
    CooldownBreaker(cfg, k.probed, e);
    assert k.pruned.st.breaker == k.clock.st.breaker;
    assert SteppedForward(cfg, k.leaked.st, e) <==> SteppedForward(cfg, s, e);
    hide Inv, ClockRule, ProbePhase, CooldownPhase, ReconcilePhase, EvictPhase, PrunePending, DropLeaked, SteppedForward;
  }

  /**
   * A refresh starts an epoch exactly when it reopens the breaker: the epoch
   * begins at this wall with empty counters. No refresh issues anything.
   */
  lemma EpochAfterRefresh(cfg: Config, s: State, e: Env)
    requires cfg.Valid()
    ensures var s' := Refresh(cfg, s, e).st;
            var p := s.breaker.probe;
            var reopens := p.Some? && (p.value.boot != e.boot || !e.witnessAlive) && p.value.marker;
            && s'.lastNum == s.lastNum && s'.totalGrants == s.totalGrants
            && (if reopens then
                  && s'.epoch == s.epoch + 1 && s'.epochStart == e.wall && s'.epochGrants == 0
                  && s'.usage == PerPrio(0, 0, 0, 0)
                else
                  && s'.epoch == s.epoch && s'.epochStart == s.epochStart && s'.epochGrants == s.epochGrants
                  && s'.usage == s.usage)
  {
    HeadCounters(cfg, s, e);
    var t := Steps(cfg, s, e).pruned;
    hide PrunePending, ClockRule, DropLeaked;
    ProbeCounters(cfg, t, e);
    var t' := ProbePhase(cfg, t, e);
    assert EvictPhase(cfg, ReconcilePhase(CooldownPhase(t', e), e), e).st.usage == t'.st.usage;
    hide ProbePhase;
  }

  lemma HeadCounters(cfg: Config, s: State, e: Env)
    requires cfg.Valid()
    ensures var s' := Steps(cfg, s, e).pruned.st;
            && s'.epoch == s.epoch && s'.epochStart == s.epochStart && s'.epochGrants == s.epochGrants
            && s'.usage == s.usage && s'.lastNum == s.lastNum && s'.totalGrants == s.totalGrants
            && s'.breaker.probe == s.breaker.probe
  {
    ClockCounters(cfg, DropLeaked(Txn(s, false), e), e);
    hide ClockRule;
  }

  lemma ClockCounters(cfg: Config, t: Txn, e: Env)
    requires cfg.Valid()
    ensures var s, s' := t.st, ClockRule(cfg, t, e).st;
            && s'.epoch == s.epoch && s'.epochStart == s.epochStart && s'.epochGrants == s.epochGrants
            && s'.usage == s.usage && s'.lastNum == s.lastNum && s'.totalGrants == s.totalGrants
            && s'.breaker.probe == s.breaker.probe
  {
    hide Classify, Applied;
  }

  lemma ProbeCounters(cfg: Config, t: Txn, e: Env)
    requires cfg.Valid()
    ensures var s, s' := t.st, ProbePhase(cfg, t, e).st;
            var p := s.breaker.probe;
            && s'.lastNum == s.lastNum && s'.totalGrants == s.totalGrants
            && (if p.Some? && (p.value.boot != e.boot || !e.witnessAlive) && p.value.marker then
                  && s'.epoch == s.epoch + 1 && s'.epochStart == e.wall && s'.epochGrants == 0
                  && s'.usage == PerPrio(0, 0, 0, 0)
                else
                  && s'.epoch == s.epoch && s'.epochStart == s.epochStart && s'.epochGrants == s.epochGrants
                  && s'.usage == s.usage)
  {
  }

  // ---------------------------------------------------------------- the bucket

  lemma ClockBucket(cfg: Config, t: Txn, e: Env)
    requires cfg.Valid()
    ensures var s, s' := t.st, ClockRule(cfg, t, e).st;
            var elapsed := e.wall - s.lastWall;
            var credit := if OrdinaryTime(cfg, s, e) && elapsed > 0.0
                          then RMin(cfg.gRps * elapsed, RMax(0.0, cfg.burst - s.tokens)) else 0.0;
            && s'.tokens == s.tokens + credit && s'.refillTotal == s.refillTotal + credit
            && s'.lastWall == (if OrdinaryTime(cfg, s, e) && elapsed <= 0.0 then s.lastWall else e.wall)
            && s'.lastMono == Some(e.mono) && s'.boot == e.boot
  {
  }

  /**
   * Time is credited exactly when it passed ordinarily: a reboot, a step of
   * the wall in either direction or a wall that stands still credits nothing,
   * whatever the state of the breaker. The baseline of the next interval is
   * this reading, unless the wall went back within the cap.
   */
  lemma BucketAfterRefresh(cfg: Config, s: State, e: Env)
    requires cfg.Valid()
    ensures var s' := Refresh(cfg, s, e).st;
            var elapsed := e.wall - s.lastWall;
            var credit := if OrdinaryTime(cfg, s, e) && elapsed > 0.0
                          then RMin(cfg.gRps * elapsed, RMax(0.0, cfg.burst - s.tokens)) else 0.0;
            && s'.tokens == s.tokens + credit && s'.refillTotal == s.refillTotal + credit
            && s'.lastWall == (if OrdinaryTime(cfg, s, e) && elapsed <= 0.0 then s.lastWall else e.wall)
            && s'.lastMono == Some(e.mono) && s'.boot == e.boot
  {
    hide ClockRule, ProbePhase, CooldownPhase, ReconcilePhase, EvictPhase, PrunePending, OrdinaryTime;
    var t := DropLeaked(Txn(s, false), e);
    SameTime(cfg, s, t.st, e);
    ClockBucket(cfg, t, e);
    AfterClock(cfg, ClockRule(cfg, t, e), e);
  }

  lemma SameTime(cfg: Config, s: State, s': State, e: Env)
    requires s'.boot == s.boot && s'.lastWall == s.lastWall && s'.lastMono == s.lastMono
    ensures OrdinaryTime(cfg, s', e) <==> OrdinaryTime(cfg, s, e)
  {
  }

  // -------------------------------------------------------- when to write

  lemma ClockDirty(cfg: Config, t: Txn, e: Env)
    requires cfg.Valid()
    ensures ClockRule(cfg, t, e).dirty <==> t.dirty || !OrdinaryTime(cfg, t.st, e)
  {
    hide Applied;
  }

  lemma QueueDirty(cfg: Config, s: State, e: Env)
    requires cfg.Valid()
    ensures var k := Steps(cfg, s, e);
            k.pruned.dirty <==> !OrdinaryTime(cfg, s, e) || k.pruned.st.pending != s.pending
  {
    var k := Steps(cfg, s, e);
    ClockDirty(cfg, k.leaked, e);
    ClockFrames(cfg, k.leaked, e);
    hide ClockRule;
    assert k.leaked.dirty <==> k.leaked.st.pending != s.pending by {
      LeakedDirty(s, e);
    }
    if k.pruned.st.pending == s.pending {
      assert forall r :: r in s.pending ==> r in k.leaked.st.pending;
      assert k.leaked.st.pending == s.pending;
    }
  }

  lemma LeakedDirty(s: State, e: Env)
    ensures DropLeaked(Txn(s, false), e).dirty <==> s.pending - e.leaked != s.pending
  {
    if r :| r in s.pending && r in e.leaked {
      assert r in s.pending.Keys * e.leaked;
      assert r !in s.pending - e.leaked;
    } else {
      assert s.pending.Keys * e.leaked == {};
      assert s.pending - e.leaked == s.pending;
    }
  }

  lemma ProbeDirty(cfg: Config, t: Txn, e: Env)
    requires cfg.Valid()
    ensures var t' := ProbePhase(cfg, t, e);
            && (t'.dirty <==> t.dirty || t'.st.breaker.probe != t.st.breaker.probe)
            && (t'.st.breaker.probe == t.st.breaker.probe ==> t'.st == t.st)
  {
  }

  lemma TailDirty(cfg: Config, t: Txn, e: Env)
    requires t.st.breaker.probe.Some? ==> t.st.breaker.state == RECOVERY
    ensures var t' := EvictPhase(cfg, ReconcilePhase(CooldownPhase(t, e), e), e);
            && t'.st.breaker.probe == t.st.breaker.probe
            && (t'.dirty <==> t.dirty || t'.st != t.st)
  {
    var c := CooldownPhase(t, e);
    ReconcileDirty(c, e);
    EvictDirty(cfg, c, ReconcilePhase(c, e), e);
    hide ReconcilePhase, EvictPhase;
  }

  lemma ReconcileDirty(t: Txn, e: Env)
    ensures var r := ReconcilePhase(t, e);
            && r.st == t.st.(grants := r.st.grants) && r.st.grants.Keys == t.st.grants.Keys
            && (r.dirty <==> t.dirty || r.st.grants != t.st.grants)
  {
  }

  /** Eviction removes records and restores none, so what reconciling changed stays changed. */
  lemma EvictDirty(cfg: Config, c: Txn, r: Txn, e: Env)
    requires r.st == c.st.(grants := r.st.grants) && r.st.grants.Keys == c.st.grants.Keys
    requires r.dirty <==> c.dirty || r.st.grants != c.st.grants
    ensures var t' := EvictPhase(cfg, r, e);
            t'.st == c.st.(grants := t'.st.grants) && (t'.dirty <==> c.dirty || t'.st.grants != c.st.grants)
  {
    var m := EvictPhase(cfg, r, e).st.grants;
    assert m.Keys <= r.st.grants.Keys && forall g :: g in m ==> m[g] == r.st.grants[g];
    assert m.Keys == r.st.grants.Keys ==> m == r.st.grants;
  }

  /**
   * A refresh asks for a write exactly when the clocks were stepped or rebooted
   * or it changed something beyond the clock and the bucket: an idle poll
   * in ordinary time never writes, and no change is ever left unwritten.
   */
  lemma WriteIsAskedIff(cfg: Config, s: State, e: Env)
    requires cfg.Valid() && Inv(cfg, s)
    ensures var t := Refresh(cfg, s, e);
            t.dirty <==> !OrdinaryTime(cfg, s, e) || t.st != WithClock(s, t.st)
  {
    var k := Steps(cfg, s, e);
    assert BreakerShape(cfg, s.breaker);
    if !Refresh(cfg, s, e).dirty {
      CleanRefresh(cfg, s, e);
    }
    QueueDirty(cfg, s, e);
    HeadFrames(cfg, s, e);
    ProbeDirty(cfg, k.pruned, e);
    NoProbeWhenOpen(cfg, k.pruned, e);
    TailDirty(cfg, k.probed, e);
    ProbeFrames(cfg, k.pruned, e);
    TailFrames(cfg, k.probed, e);
    if OrdinaryTime(cfg, s, e) {
      HeadWithClock(cfg, s, e);
    }
    AfterClock(cfg, k.clock, e);
    hide Inv, ClockRule, ProbePhase, CooldownPhase, ReconcilePhase, EvictPhase, PrunePending, DropLeaked, OrdinaryTime;
  }

  lemma NoProbeWhenOpen(cfg: Config, t: Txn, e: Env)
    requires cfg.Valid() && (t.st.breaker.probe.Some? ==> t.st.breaker.state == RECOVERY)
    ensures var b := ProbePhase(cfg, t, e).st.breaker; b.probe.Some? ==> b.state == RECOVERY
  {
  }

  /** In ordinary time the phases before the slot change nothing but clock, bucket and queue. */
  lemma HeadWithClock(cfg: Config, s: State, e: Env)
    requires cfg.Valid() && OrdinaryTime(cfg, s, e)
    ensures var t := Steps(cfg, s, e).pruned; t.st == WithClock(s, t.st).(pending := t.st.pending)
  {
    OrdinaryClock(cfg, DropLeaked(Txn(s, false), e), e);
    hide ClockRule, ProbePhase, CooldownPhase, ReconcilePhase, EvictPhase, Refresh;
  }

  lemma OrdinaryClock(cfg: Config, t: Txn, e: Env)
    requires cfg.Valid() && OrdinaryTime(cfg, t.st, e)
    ensures ClockRule(cfg, t, e).st == WithClock(t.st, ClockRule(cfg, t, e).st)
  {
    hide Applied;
  }
}
