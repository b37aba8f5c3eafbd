/**
 * What every phase and every operation of a transaction keeps true of the
 * shared document, whatever the clocks and the liveness answers say.
 */
module LimiterInvariants {
  import opened Basics
  import opened LimiterConfig
  import opened LimiterState
  import opened LimiterSpec

  function SumUsage(u: PerPrio<nat>): nat { u.p0 + u.p1 + u.p2 + u.p3 }

  /** Accounting: every token is the burst, a refill, or spent on exactly one grant. */
  predicate Accounts(cfg: Config, s: State) {
    && s.tokens == cfg.burst + s.refillTotal - s.totalGrants as real
    && 0.0 <= s.tokens <= cfg.burst
    && s.lastNum == s.totalGrants
    && SumUsage(s.usage) == s.epochGrants
  }

  /** Every registered id was issued in order, in an epoch that has begun, and numbers are not shared. */
  predicate IssuedIds(s: State) {
    && s.epoch >= 1
    && (forall g :: g in s.grants ==> 1 <= g.num <= s.lastNum && 1 <= g.epoch <= s.epoch)
    && (forall g, h :: g in s.grants && h in s.grants && g.num == h.num ==> g == h)
  }

  /** The breaker's level, state and slot fit together. */
  predicate BreakerShape(cfg: Config, b: Breaker) {
    && b.level <= |cfg.cooldowns|
    && (b.state == CLOSED <==> b.level == 0)
    && (b.probe.Some? ==> b.state == RECOVERY)
  }

  predicate Open(s: State, g: Gid) { g in s.grants && s.grants[g].outcome == None }

  predicate Terminal(s: State, g: Gid) { g in s.grants && s.grants[g].outcome != None }

  /**
   * The recovery slot: an open breaker's epoch has issued nothing, in
   * recovery the only grant of the epoch that is still open is the slot's
   * holder, and the slot's holder is such a grant.
   */
  predicate SlotDiscipline(s: State) {
    && (forall g :: g in s.grants && g.epoch == s.epoch ==>
          && s.breaker.state != OPEN
          && (s.breaker.state == RECOVERY && s.grants[g].outcome == None ==> HoldsSlot(s, g))
          && (s.breaker.state == CLOSED && s.grants[g].outcome == None ==> !s.grants[g].probe))
    && (s.breaker.probe.Some? ==>
          var p := s.breaker.probe.value;
          && Open(s, p.holder) && p.holder.epoch == s.epoch && s.grants[p.holder].probe
          && s.grants[p.holder].sent == p.marker
          && s.grants[p.holder].pid == p.pid && s.grants[p.holder].boot == p.boot)
  }

  /** A demand never outlives its hard limit. */
  predicate DemandsCapped(cfg: Config, s: State) {
    forall r :: r in s.pending ==> s.pending[r].expireWall <= s.pending[r].registeredWall + cfg.demandTtl
  }

  ghost predicate Inv(cfg: Config, s: State) {
    Accounts(cfg, s) && IssuedIds(s) && BreakerShape(cfg, s.breaker) && SlotDiscipline(s) && DemandsCapped(cfg, s)
  }

  /**
   * How a later document relates to an earlier one: counters only grow, ids
   * are never issued twice, a record's identity is fixed, and a terminal
   * record never changes again.
   */
  predicate Evolves(s: State, s': State) {
    && s.lastNum <= s'.lastNum
    && s.epoch <= s'.epoch
    && (forall g :: g in s'.grants ==> g in s.grants || g.num > s.lastNum)
    && (forall g :: g in s.grants && g in s'.grants ==> RecordKept(s.grants[g], s'.grants[g]))
  }

  predicate RecordKept(a: Grant, b: Grant) {
    && a.prio == b.prio && a.issuedWall == b.issuedWall && a.probe == b.probe && a.pid == b.pid && a.boot == b.boot
    && (a.outcome != None ==> b == a)
    && (a.sent ==> b.sent)
  }

  lemma EvolvesTransitive(s: State, s': State, s'': State)
    requires IssuedIds(s) && Evolves(s, s') && Evolves(s', s'')
    ensures Evolves(s, s'')
  {
    forall g | g in s.grants && g in s''.grants
      ensures RecordKept(s.grants[g], s''.grants[g])
    {
      assert g in s'.grants;
    }
  }

  lemma InitialInv(cfg: Config, wall: real, mono: real, boot: Boot)
    requires cfg.Valid()
    ensures Inv(cfg, InitialState(cfg, wall, mono, boot))
  {
  }

  // ------------------------------------------------------------------ refresh

  lemma CreditIsBounded(cfg: Config, tokens: real, delta: real)
    requires cfg.Valid() && 0.0 <= tokens <= cfg.burst && delta > 0.0
    ensures 0.0 <= Applied(cfg, tokens, delta) <= cfg.gRps * delta
    ensures tokens + Applied(cfg, tokens, delta) <= cfg.burst
  {
    assert cfg.gRps * delta > 0.0;
  }

  /** The slot's discipline reads the registry, the epoch, the breaker's state and the slot. */
  lemma SlotFrame(s: State, s': State)
    requires SlotDiscipline(s) && s'.grants == s.grants && s'.epoch == s.epoch
    requires s'.breaker.state == s.breaker.state && s'.breaker.probe == s.breaker.probe
    ensures SlotDiscipline(s')
  {
  }

  lemma ClockAccounts(cfg: Config, t: Txn, e: Env)
    requires cfg.Valid() && Accounts(cfg, t.st)
    ensures Accounts(cfg, ClockRule(cfg, t, e).st)
  {
    hide Classify, Applied;
    var s := t.st;
    if s.boot == e.boot && Classify(cfg, s, e) == Normal && e.wall - s.lastWall > 0.0 {
      CreditIsBounded(cfg, s.tokens, e.wall - s.lastWall);
    }
  }

  lemma ClockKeeps(cfg: Config, t: Txn, e: Env)
    requires cfg.Valid() && Inv(cfg, t.st)
    ensures Inv(cfg, ClockRule(cfg, t, e).st)
    ensures Evolves(t.st, ClockRule(cfg, t, e).st)
  {
    hide Accounts, SlotDiscipline, IssuedIds, Evolves, Classify, Applied;
    var s' := ClockRule(cfg, t, e).st;
    assert s'.grants == t.st.grants && s'.pending == t.st.pending && s'.breaker.probe == t.st.breaker.probe;
    ClockAccounts(cfg, t, e);
    SlotFrame(t.st, s');
    SameGrantsEvolve(t.st);
    IdsFrame(t.st, t.st, s');
  }

  lemma PendingKeeps(cfg: Config, s: State, pending: map<Rid, Demand>)
    requires Inv(cfg, s)
    requires forall r :: r in pending ==> r in s.pending && pending[r] == s.pending[r]
    ensures Inv(cfg, s.(pending := pending)) && Evolves(s, s.(pending := pending))
  {
  }

  /** Trips keep everything, given that the caller already closed whatever it had to close. */
  lemma ApplyOpenKeeps(cfg: Config, s: State, wall: real, bump: bool)
    requires cfg.Valid()
    requires Accounts(cfg, s) && IssuedIds(s) && DemandsCapped(cfg, s)
    requires s.breaker.level <= |cfg.cooldowns| && (s.breaker.level > 0 || bump)
    ensures Inv(cfg, ApplyOpen(cfg, s, wall, bump)) && Evolves(s, ApplyOpen(cfg, s, wall, bump))
    ensures ApplyOpen(cfg, s, wall, bump).epoch == s.epoch + 1
  {
    var s' := ApplyOpen(cfg, s, wall, bump);
    assert s'.grants == s.grants && s'.pending == s.pending;
  }

  lemma CloseKeepsIds(cfg: Config, s: State, g: Gid, o: Outcome)
    requires IssuedIds(s)
    ensures IssuedIds(s.(grants := CloseGrant(s.grants, g, o)))
    ensures Evolves(s, s.(grants := CloseGrant(s.grants, g, o)))
  {
  }

  /** The record of a gone holder closed, its slot emptied. */
  function ClosedHolder(s: State, p: Probe): State {
    s.(grants := CloseGrant(s.grants, p.holder, OrphanOutcome(p.marker)), breaker := s.breaker.(probe := None))
  }

  lemma ClosedHolderKeeps(cfg: Config, s: State, p: Probe)
    requires Inv(cfg, s) && s.breaker.probe == Some(p)
    ensures Inv(cfg, ClosedHolder(s, p)) && Evolves(s, ClosedHolder(s, p))
  {
    CloseHolderKeeps(cfg, s, p.holder, OrphanOutcome(p.marker));
    assert HoldsSlot(s, p.holder);
    hide Inv, Evolves, CloseGrant;
  }

  lemma ReopenKeeps(cfg: Config, s: State, wall: real)
    requires cfg.Valid() && Inv(cfg, s) && s.breaker.level > 0
    ensures var o := ApplyOpen(cfg, s, wall, false);
            var s' := o.(breaker := o.breaker.(unknownCount := o.breaker.unknownCount + 1));
            Inv(cfg, s') && Evolves(s, s')
  {
    ApplyOpenKeeps(cfg, s, wall, false);
    var o := ApplyOpen(cfg, s, wall, false);
    UnknownCounted(cfg, o);
    EvolvesTransitive(s, o, o.(breaker := o.breaker.(unknownCount := o.breaker.unknownCount + 1)));
    hide IssuedIds, SlotDiscipline, Evolves, ApplyOpen, Accounts, DemandsCapped;
  }

  lemma ResolveKeeps(cfg: Config, s: State, p: Probe, wall: real)
    requires cfg.Valid() && Inv(cfg, s) && s.breaker.probe == Some(p)
    ensures Inv(cfg, ResolveDeadProbe(cfg, s, p, wall))
    ensures Evolves(s, ResolveDeadProbe(cfg, s, p, wall))
  {
    hide IssuedIds, SlotDiscipline, Evolves, Accounts, DemandsCapped, CloseGrant, ApplyOpen;
    var c := ClosedHolder(s, p);
    ClosedHolderKeeps(cfg, s, p);
    if p.marker {
      ReopenKeeps(cfg, c, wall);
      EvolvesTransitive(s, c, ResolveDeadProbe(cfg, s, p, wall));
    }
  }

  lemma UnknownCounted(cfg: Config, s: State)
    requires Inv(cfg, s)
    ensures var s' := s.(breaker := s.breaker.(unknownCount := s.breaker.unknownCount + 1));
            Inv(cfg, s') && Evolves(s, s')
  {
    hide SlotDiscipline;
    SlotFrame(s, s.(breaker := s.breaker.(unknownCount := s.breaker.unknownCount + 1)));
  }

  lemma ProbeKeeps(cfg: Config, t: Txn, e: Env)
    requires cfg.Valid() && Inv(cfg, t.st)
    ensures Inv(cfg, ProbePhase(cfg, t, e).st)
    ensures Evolves(t.st, ProbePhase(cfg, t, e).st)
  {
    hide Refresh, Poll, Record, PrepareSend, Select, Register, Issue, TryGrant, ClockRule, CooldownPhase,
      ReconcilePhase, EvictPhase, PrunePending, DropLeaked, Drop, CloseGrant, ApplyOutcome, ApplyOpen, MayGrant,
      Winner;
    match t.st.breaker.probe
    case None =>
    case Some(p) =>
      if HolderGone(p, e) {
        ResolveKeeps(cfg, t.st, p, e.wall);
      } else {
        assert ProbePhase(cfg, t, e).st.grants == t.st.grants;
      }
  }

  lemma CooldownKeeps(cfg: Config, t: Txn, e: Env)
    requires Inv(cfg, t.st)
    ensures Inv(cfg, CooldownPhase(t, e).st)
    ensures Evolves(t.st, CooldownPhase(t, e).st)
  {
    assert CooldownPhase(t, e).st.grants == t.st.grants;
  }

  lemma ReconcileKeeps(cfg: Config, t: Txn, e: Env)
    requires Inv(cfg, t.st)
    ensures Inv(cfg, ReconcilePhase(t, e).st)
    ensures Evolves(t.st, ReconcilePhase(t, e).st)
  {
    hide SlotDiscipline, IssuedIds, Evolves;
    var s' := ReconcilePhase(t, e).st;
    assert s'.grants.Keys == t.st.grants.Keys;
    assert forall g :: g in s'.grants ==> s'.grants[g] == Reconciled(t.st.grants[g], e);
    ReconciledIds(t.st, s', e);
    ReconciledSlot(t.st, s', e);
  }

  lemma ReconciledIds(s: State, s': State, e: Env)
    requires IssuedIds(s) && s' == s.(grants := s'.grants)
    requires s'.grants.Keys == s.grants.Keys
    requires forall g :: g in s'.grants ==> s'.grants[g] == Reconciled(s.grants[g], e)
    ensures IssuedIds(s') && Evolves(s, s')
  {
    assert forall g :: g in s'.grants <==> g in s.grants;
  }

  lemma ReconciledSlot(s: State, s': State, e: Env)
    requires SlotDiscipline(s) && s' == s.(grants := s'.grants)
    requires s'.grants.Keys == s.grants.Keys
    requires forall g :: g in s'.grants ==> s'.grants[g] == Reconciled(s.grants[g], e)
    ensures SlotDiscipline(s')
  {
    assert forall g :: g in s'.grants ==> g in s.grants;
    assert forall g :: g in s'.grants && s.grants[g].probe ==> s'.grants[g] == s.grants[g];
  }

  lemma EvictKeeps(cfg: Config, t: Txn, e: Env)
    requires Inv(cfg, t.st)
    ensures Inv(cfg, EvictPhase(cfg, t, e).st)
    ensures Evolves(t.st, EvictPhase(cfg, t, e).st)
    ensures forall g :: Open(t.st, g) ==> Open(EvictPhase(cfg, t, e).st, g)
  {
    var s' := EvictPhase(cfg, t, e).st;
    assert forall g :: g in s'.grants ==> g in t.st.grants && s'.grants[g] == t.st.grants[g];
  }

  /** The states a refresh goes through, for proofs that need them. */
  datatype RefreshSteps = RefreshSteps(leaked: Txn, clock: Txn, pruned: Txn, probed: Txn, cooled: Txn, reconciled: Txn)

  function Steps(cfg: Config, s: State, e: Env): (k: RefreshSteps)
    requires cfg.Valid()
    ensures Refresh(cfg, s, e) == EvictPhase(cfg, k.reconciled, e)
  {
    var t0 := DropLeaked(Txn(s, false), e);
    var t1 := ClockRule(cfg, t0, e);
    var t2 := PrunePending(t1, e);
    var t3 := ProbePhase(cfg, t2, e);
    var t4 := CooldownPhase(t3, e);
    RefreshSteps(t0, t1, t2, t3, t4, ReconcilePhase(t4, e))
  }

  lemma RefreshKeeps(cfg: Config, s: State, e: Env)
    requires cfg.Valid() && Inv(cfg, s)
    ensures Inv(cfg, Refresh(cfg, s, e).st)
    ensures Evolves(s, Refresh(cfg, s, e).st)
  {
    var k := Steps(cfg, s, e);
    PendingKeeps(cfg, s, k.leaked.st.pending);
    ClockKeeps(cfg, k.leaked, e);
    EvolvesTransitive(s, k.leaked.st, k.clock.st);
    PendingKeeps(cfg, k.clock.st, k.pruned.st.pending);
    EvolvesTransitive(s, k.clock.st, k.pruned.st);
    ProbeKeeps(cfg, k.pruned, e);
    EvolvesTransitive(s, k.pruned.st, k.probed.st);
    CooldownKeeps(cfg, k.probed, e);
    EvolvesTransitive(s, k.probed.st, k.cooled.st);
    ReconcileKeeps(cfg, k.cooled, e);
    EvolvesTransitive(s, k.cooled.st, k.reconciled.st);
    EvictKeeps(cfg, k.reconciled, e);
    EvolvesTransitive(s, k.reconciled.st, Refresh(cfg, s, e).st);
  }

  // --------------------------------------------------------------- operations

  /** The queue may be replaced by any other that respects the hard limits. */
  lemma QueueReplaced(cfg: Config, s: State, pending: map<Rid, Demand>)
    requires Inv(cfg, s) && DemandsCapped(cfg, s.(pending := pending))
    ensures Inv(cfg, s.(pending := pending)) && Evolves(s, s.(pending := pending))
  {
    hide SlotDiscipline;
    SlotFrame(s, s.(pending := pending));
  }

  lemma RegisterCaps(cfg: Config, t: Txn, p: Prio, r: Rid, anchor: Option<real>, e: Env)
    requires DemandsCapped(cfg, t.st)
    ensures var reg := Register(cfg, t, p, r, anchor, e);
            reg.Registered? ==> reg.t.st == t.st.(pending := reg.t.st.pending) && DemandsCapped(cfg, reg.t.st)
  {
  }

  lemma RegisterKeeps(cfg: Config, t: Txn, p: Prio, r: Rid, anchor: Option<real>, e: Env)
    requires cfg.Valid() && Inv(cfg, t.st)
    ensures var reg := Register(cfg, t, p, r, anchor, e);
            reg.Registered? ==>
              Inv(cfg, reg.t.st) && Evolves(t.st, reg.t.st) && reg.t.st == t.st.(pending := reg.t.st.pending)
  {
    hide Register, Evolves, Accounts, IssuedIds, BreakerShape, SlotDiscipline, DemandsCapped;
    RegisterCaps(cfg, t, p, r, anchor, e);
    var reg := Register(cfg, t, p, r, anchor, e);
    if reg.Registered? {
      QueueReplaced(cfg, t.st, reg.t.st.pending);
    }
  }

  lemma DropKeeps(cfg: Config, t: Txn, r: Rid)
    requires Inv(cfg, t.st)
    ensures Inv(cfg, Drop(t, r).st) && Evolves(t.st, Drop(t, r).st)
    ensures Drop(t, r).st == t.st.(pending := t.st.pending - {r})
  {
    if r in t.st.pending {
      PendingKeeps(cfg, t.st, t.st.pending - {r});
    } else {
      assert t.st.pending - {r} == t.st.pending;
    }
  }

  lemma IssueAccounts(cfg: Config, s: State, p: Prio, r: Rid, e: Env)
    requires Accounts(cfg, s) && s.tokens >= 1.0
    ensures Accounts(cfg, Issue(cfg, s, p, r, e))
  {
    var s' := Issue(cfg, s, p, r, e);
    assert SumUsage(s'.usage) == SumUsage(s.usage) + 1;
  }

  lemma FreshId(s: State, g: Grant)
    requires IssuedIds(s)
    ensures var s' := s.(lastNum := s.lastNum + 1, grants := s.grants[NextGid(s) := g]);
            IssuedIds(s') && Evolves(s, s') && NextGid(s) !in s.grants
  {
    var n := NextGid(s);
    assert forall h :: h in s.grants ==> h.num != n.num;
  }

  lemma IssueIds(cfg: Config, s: State, p: Prio, r: Rid, e: Env)
    requires IssuedIds(s)
    ensures IssuedIds(Issue(cfg, s, p, r, e)) && Evolves(s, Issue(cfg, s, p, r, e)) && NextGid(s) !in s.grants
  {
    hide IssuedIds, Evolves;
    var g := Grant(p, e.wall, None, s.breaker.state == RECOVERY, e.pid, e.boot, false);
    var m := s.(lastNum := s.lastNum + 1, grants := s.grants[NextGid(s) := g]);
    FreshId(s, g);
    var s' := Issue(cfg, s, p, r, e);
    assert s'.grants == m.grants && s'.lastNum == m.lastNum && s'.epoch == m.epoch;
    IdsFrame(s, m, s');
  }

  /** Ids read the registry, the counter and the epoch. */
  lemma IdsFrame(s: State, m: State, s': State)
    requires IssuedIds(m) && Evolves(s, m)
    requires s'.grants == m.grants && s'.lastNum == m.lastNum && s'.epoch == m.epoch
    ensures IssuedIds(s') && Evolves(s, s')
  {
  }

  lemma IssueSlot(cfg: Config, s: State, p: Prio, r: Rid, e: Env)
    requires SlotDiscipline(s) && NextGid(s) !in s.grants
    requires s.breaker.state != OPEN && s.breaker.probe == None
    ensures SlotDiscipline(Issue(cfg, s, p, r, e))
  {
    var s' := Issue(cfg, s, p, r, e);
    assert forall g :: g in s'.grants && g != NextGid(s) ==> g in s.grants && s'.grants[g] == s.grants[g];
  }

  lemma IssueKeeps(cfg: Config, s: State, p: Prio, r: Rid, e: Env)
    requires cfg.Valid() && Inv(cfg, s)
    requires s.tokens >= 1.0 && s.breaker.state != OPEN && (s.breaker.state == RECOVERY ==> s.breaker.probe == None)
    ensures Inv(cfg, Issue(cfg, s, p, r, e))
    ensures Evolves(s, Issue(cfg, s, p, r, e))
    ensures NextGid(s) !in s.grants
  {
    hide Accounts, IssuedIds, SlotDiscipline, Evolves, NextGid;
    IssueAccounts(cfg, s, p, r, e);
    IssueIds(cfg, s, p, r, e);
    IssueSlot(cfg, s, p, r, e);
  }

  lemma SelectKeeps(cfg: Config, t: Txn, p: Prio, r: Rid, anchor: real, e: Env, budget: real)
    requires cfg.Valid() && Inv(cfg, t.st)
    ensures var q := Select(cfg, t, p, r, anchor, e, budget); Inv(cfg, q.t.st) && Evolves(t.st, q.t.st)
  {
    hide Inv, Refresh, Poll, Record, PrepareSend;
    if t.st.breaker.state == OPEN {
      DropKeeps(cfg, t, r);
    } else {
      match TryGrant(cfg, t.st, p, r, e)
      case NoGrant =>
      case Refused(_) =>
      case Issued(gid, probe) =>
        IssueKeeps(cfg, t.st, p, r, e);
        assert Select(cfg, t, p, r, anchor, e, budget).t.st == Issue(cfg, t.st, p, r, e);
    }
  }

  lemma PollKeeps(cfg: Config, s: State, p: Prio, r: Rid, anchor: Option<real>, e: Env, budget: real)
    requires cfg.Valid() && Inv(cfg, s)
    ensures var q := Poll(cfg, s, p, r, anchor, e, budget); Inv(cfg, q.t.st) && Evolves(s, q.t.st)
  {
    var t := Refresh(cfg, s, e);
    RefreshKeeps(cfg, s, e);
    RegisterKeeps(cfg, t, p, r, anchor, e);
    DropKeeps(cfg, t, r);
    match Register(cfg, t, p, r, anchor, e)
    case Full =>
    case Stale => EvolvesTransitive(s, t.st, Drop(t, r).st);
    case Registered(t', a) =>
      SelectKeeps(cfg, t', p, r, a, e, budget);
      EvolvesTransitive(s, t.st, t'.st);
      EvolvesTransitive(s, t'.st, Select(cfg, t', p, r, a, e, budget).t.st);
  }

  /** Closing one open record that is not (or no longer) in the slot keeps everything. */
  lemma CloseKeeps(cfg: Config, s: State, g: Gid, o: Outcome)
    requires Inv(cfg, s) && !HoldsSlot(s, g)
    ensures var s' := s.(grants := CloseGrant(s.grants, g, o)); Inv(cfg, s') && Evolves(s, s')
  {
    hide Refresh, Poll, Record, PrepareSend, Select, Evolves;
    CloseKeepsIds(cfg, s, g, o);
    var s' := s.(grants := CloseGrant(s.grants, g, o));
    assert forall h :: h in s'.grants ==> h in s.grants && (h != g ==> s'.grants[h] == s.grants[h]);
  }

  /** Closing the slot's holder together with freeing the slot keeps everything. */
  lemma CloseHolderKeeps(cfg: Config, s: State, g: Gid, o: Outcome)
    requires Inv(cfg, s) && HoldsSlot(s, g)
    ensures var s' := FreeSlot(s.(grants := CloseGrant(s.grants, g, o)), g); Inv(cfg, s') && Evolves(s, s')
  {
    CloseKeepsIds(cfg, s, g, o);
    var s' := FreeSlot(s.(grants := CloseGrant(s.grants, g, o)), g);
    assert forall h :: h in s'.grants ==> h in s.grants && (h != g ==> s'.grants[h] == s.grants[h]);
  }

  /** Both send markers set. */
  function Marked(s: State, g: Gid): State
    requires g in s.grants && (s.grants[g].probe ==> HoldsSlot(s, g))
  {
    s.(grants := s.grants[g := s.grants[g].(sent := true)],
       breaker := if s.grants[g].probe
                  then s.breaker.(probe := Some(s.breaker.probe.value.(marker := true)))
                  else s.breaker)
  }

  lemma PrepareMarks(t: Txn, g: Gid)
    requires Open(t.st, g) && (t.st.grants[g].probe ==> HoldsSlot(t.st, g)) && g.epoch == t.st.epoch
    ensures PrepareSend(t, g).0.st == Marked(t.st, g) && PrepareSend(t, g).1
  {
    if t.st.grants[g].sent {
      assert t.st.grants[g := t.st.grants[g].(sent := true)] == t.st.grants;
    }
  }

  lemma MarkedIds(s: State, g: Gid)
    requires IssuedIds(s) && Open(s, g) && (s.grants[g].probe ==> HoldsSlot(s, g))
    ensures IssuedIds(Marked(s, g)) && Evolves(s, Marked(s, g))
  {
    assert forall h :: h in Marked(s, g).grants <==> h in s.grants;
  }

  lemma MarkedSlot(s: State, g: Gid)
    requires SlotDiscipline(s) && Open(s, g) && (s.grants[g].probe ==> HoldsSlot(s, g))
    ensures SlotDiscipline(Marked(s, g))
  {
    var s' := Marked(s, g);
    assert forall h :: h in s'.grants ==>
             h in s.grants && s'.grants[h].outcome == s.grants[h].outcome && s'.grants[h].probe == s.grants[h].probe;
  }

  lemma MarksKeep(cfg: Config, t: Txn, g: Gid)
    requires Inv(cfg, t.st) && Open(t.st, g) && (t.st.grants[g].probe ==> HoldsSlot(t.st, g))
    requires g.epoch == t.st.epoch
    ensures var s' := PrepareSend(t, g).0.st; Inv(cfg, s') && Evolves(t.st, s')
    ensures PrepareSend(t, g).1 && Open(PrepareSend(t, g).0.st, g) && PrepareSend(t, g).0.st.grants[g].sent
  {
    hide PrepareSend, IssuedIds, SlotDiscipline, Evolves;
    PrepareMarks(t, g);
    MarkedIds(t.st, g);
    MarkedSlot(t.st, g);
  }

  lemma PrepareKeeps(cfg: Config, t: Txn, g: Gid)
    requires Inv(cfg, t.st)
    ensures var (t', send) := PrepareSend(t, g);
            && Inv(cfg, t'.st) && Evolves(t.st, t'.st)
            && (send ==> Open(t'.st, g) && t'.st.grants[g].sent && g.epoch == t.st.epoch)
  {
    if Open(t.st, g) {
      if g.epoch == t.st.epoch && (t.st.grants[g].probe ==> HoldsSlot(t.st, g)) {
        MarksKeep(cfg, t, g);
      } else {
        CloseKeeps(cfg, t.st, g, REVOKED);
      }
    }
  }

  lemma SuccessKeeps(cfg: Config, s: State)
    requires cfg.Valid() && Inv(cfg, s) && s.breaker.probe == None
    requires s.breaker.state == RECOVERY ==> forall g :: Open(s, g) ==> g.epoch != s.epoch
    ensures Inv(cfg, CountSuccess(cfg, s)) && Evolves(s, CountSuccess(cfg, s))
  {
    var s' := CountSuccess(cfg, s);
    assert s'.grants == s.grants && s'.pending == s.pending;
  }

  /** A recorded outcome keeps everything. */
  lemma OutcomeKeeps(cfg: Config, s: State, g: Gid, o: Outcome, wall: real)
    requires cfg.Valid() && Inv(cfg, s) && Open(s, g)
    ensures var s' := ApplyOutcome(cfg, s.(grants := CloseGrant(s.grants, g, o)), g, o, wall);
            Inv(cfg, s') && Evolves(s, s')
  {
    hide Refresh, Poll, Record, PrepareSend, Select, Evolves;
    var c := s.(grants := CloseGrant(s.grants, g, o));
    if o == RATE_LIMIT && g.epoch == s.epoch {
      CloseKeepsIds(cfg, s, g, o);
      ApplyOpenKeeps(cfg, c, wall, true);
      EvolvesTransitive(s, c, ApplyOpen(cfg, c, wall, true));
    } else {
      var f := FreeSlot(c, g);
      if HoldsSlot(s, g) {
        CloseHolderKeeps(cfg, s, g, o);
      } else {
        CloseKeeps(cfg, s, g, o);
      }
      if o == OK && g.epoch == s.epoch {
        SlotEmptied(s, g, o);
        SuccessKeeps(cfg, f);
        EvolvesTransitive(s, f, CountSuccess(cfg, f));
      }
    }
  }

  /** After the last open grant of the epoch is closed, recovery has no open grant and no holder. */
  lemma SlotEmptied(s: State, g: Gid, o: Outcome)
    requires BreakerSlot(s) && SlotDiscipline(s) && Open(s, g) && g.epoch == s.epoch
    ensures var f := FreeSlot(s.(grants := CloseGrant(s.grants, g, o)), g);
            && f.breaker.probe == None
            && (f.breaker.state == RECOVERY ==> forall h :: Open(f, h) ==> h.epoch != f.epoch)
  {
  }

  predicate BreakerSlot(s: State) { s.breaker.probe.Some? ==> s.breaker.state == RECOVERY }

  lemma RecordKeeps(cfg: Config, t: Txn, g: Gid, o: Outcome, wall: real)
    requires cfg.Valid() && Inv(cfg, t.st)
    ensures var (t', result) := Record(cfg, t, g, o, wall);
            && Inv(cfg, t'.st) && Evolves(t.st, t'.st)
            && (result == APPLIED <==> Open(t.st, g))
            && (result == APPLIED ==> Terminal(t'.st, g) && t'.st.grants[g].outcome == Some(o))
  {
    SameGrantsEvolve(t.st);
    hide Inv, Evolves;
    if Open(t.st, g) {
      OutcomeKeeps(cfg, t.st, g, o, wall);
    }
  }

  lemma SameGrantsEvolve(s: State)
    ensures Evolves(s, s)
  {
  }
}
