/**
 * A run of one process in which a rate-limit report whose write fails leaves
 * the recovery slot filled and its witness free.
 */
module LimiterExample {
  import opened Basics
  import opened LimiterConfig
  import opened LimiterState
  import opened LimiterSpec
  import opened LimiterInvariants
  import opened LimiterProtocol
  import opened LimiterWorld
  import opened LimiterDocument
  import opened LimiterSlot

  const CONFIG := Config(1.0, 2.0, PerPrio(1.0, 1.0, 1.0, 1.0), 1.0, 60.0, 10, [5.0], 1, 5.0, 1.0, 20, 10.0, 5.0, 5.0, 1, 0.0)

  lemma ConfigOk()
    ensures CONFIG.Valid()
  {
    assert Ceil(20.0) == 20;
  }

  const FIRST := Gid(1, 1)
  const PROBE := Gid(2, 2)

  // The readings before and after the cooldown.
  const EARLY := Env(0.0, 0.0, 0, 1, map[], true, false, {})
  const LATE := Env(5.0, 5.0, 0, 1, map[], true, false, {})

  // ----------------------------------------------------------------- documents

  const NEW := InitialState(CONFIG, 0.0, 0.0, 0)

  const SPENT := Grant(P0, 0.0, None, false, 1, 0, false)

  /** The first grant is out. */
  const GRANTED := State(
    0.0, Some(0.0), 0, 1, 0.0, 1, 1.0, 1, 1, 0.0, PerPrio(1, 0, 0, 0), map[], map[FIRST := SPENT],
    Breaker(CLOSED, 0, 0.0, 0, 0, None))

  /** It met a rate limit. */
  const TRIPPED := State(
    0.0, Some(0.0), 0, 2, 0.0, 1, 1.0, 1, 0, 0.0, PerPrio(0, 0, 0, 0), map[],
    map[FIRST := SPENT.(outcome := Some(RATE_LIMIT))], Breaker(OPEN, 1, 5.0, 0, 0, None))

  /** After the cooldown the bucket is full again and recovery begins. */
  const RECOVERING := State(
    5.0, Some(5.0), 0, 2, 0.0, 1, 2.0, 1, 0, 1.0, PerPrio(0, 0, 0, 0), map[],
    map[FIRST := SPENT.(outcome := Some(RATE_LIMIT))], Breaker(RECOVERY, 1, 5.0, 0, 0, None))

  function Probing(marked: bool): State {
    State(5.0, Some(5.0), 0, 2, 0.0, 2, 1.0, 2, 1, 1.0, PerPrio(1, 0, 0, 0), map[],
          map[FIRST := SPENT.(outcome := Some(RATE_LIMIT)), PROBE := Grant(P0, 5.0, None, true, 1, 0, marked)],
          Breaker(RECOVERY, 1, 5.0, 0, 0, Some(Probe(PROBE, 1, 0, 10.0, marked, false))))
  }

  // ------------------------------------------------------------- transactions

  lemma RefreshNew()
    ensures CONFIG.Valid() && Refresh(CONFIG, NEW, EARLY) == Txn(NEW, false)
  {
    ConfigOk();
    var k := Steps(CONFIG, NEW, EARLY);
    assert k.leaked == Txn(NEW, false);
    assert k.clock == Txn(NEW, false);
    assert k.pruned == Txn(NEW, false);
    assert k.reconciled == Txn(NEW, false);
  }

  lemma RefreshGranted()
    ensures CONFIG.Valid() && Refresh(CONFIG, GRANTED, EARLY) == Txn(GRANTED, false)
  {
    hide Refresh;
    ConfigOk();
    var t := Txn(GRANTED, false);
    var k := Steps(CONFIG, GRANTED, EARLY);
    GrantedClock();
    hide ClockRule;
    assert k.leaked == t && k.clock == t;
    assert k.pruned == t && k.probed == t && k.cooled == t;
    assert k.reconciled == t;
  }

  lemma GrantedClock()
    ensures CONFIG.Valid() && ClockRule(CONFIG, Txn(GRANTED, false), EARLY) == Txn(GRANTED, false)
  {
    ConfigOk();
  }

  lemma RefreshTripped()
    ensures CONFIG.Valid() && Refresh(CONFIG, TRIPPED, LATE) == Txn(RECOVERING, true)
  {
    var k := Steps(CONFIG, TRIPPED, LATE);
    TrippedClock();
    var t := Txn(RECOVERING.(breaker := TRIPPED.breaker), false);
    hide ClockRule, Refresh;
    assert k.leaked == Txn(TRIPPED, false);
    assert k.clock == t;
    assert PrunePending(t, LATE) == t;
    assert CooldownPhase(t, LATE) == Txn(RECOVERING, true);
    NothingToClear();
  }

  lemma TrippedClock()
    ensures CONFIG.Valid()
    ensures ClockRule(CONFIG, Txn(TRIPPED, false), LATE) == Txn(RECOVERING.(breaker := TRIPPED.breaker), false)
  {
    ConfigOk();
  }

  lemma NothingToClear()
    ensures ReconcilePhase(Txn(RECOVERING, true), LATE) == Txn(RECOVERING, true)
    ensures EvictPhase(CONFIG, Txn(RECOVERING, true), LATE) == Txn(RECOVERING, true)
  {
  }

  lemma RefreshProbing(marked: bool)
    ensures CONFIG.Valid() && Refresh(CONFIG, Probing(marked), LATE) == Txn(Probing(marked), false)
  {
    hide Refresh;
    ConfigOk();
    var t := Txn(Probing(marked), false);
    var k := Steps(CONFIG, Probing(marked), LATE);
    ProbingClock(marked);
    hide ClockRule;
    assert k.leaked == t && k.clock == t;
    assert k.pruned == t;
    assert k.probed == t && k.cooled == t;
    assert k.reconciled == t;
  }

  lemma ProbingClock(marked: bool)
    ensures CONFIG.Valid() && ClockRule(CONFIG, Txn(Probing(marked), false), LATE) == Txn(Probing(marked), false)
  {
    ConfigOk();
  }

  function Demanded(s: State, r: Rid, e: Env): State {
    s.(pending := map[r := Demand(P0, e.pid, e.boot, e.wall, RMin(e.wall + CONFIG.demandTtl, e.wall + CONFIG.livenessTtl))])
  }

  /** A first request of the highest class, alone in the queue, is granted at once. */
  lemma AloneIsGranted(s: State, t: Txn, r: Rid, e: Env)
    requires CONFIG.Valid() && Refresh(CONFIG, s, e) == t && t.st.pending == map[]
    requires t.st.breaker.state != OPEN && t.st.breaker.probe == None && !e.witnessFails
    requires t.st.tokens >= 1.0 && |t.st.grants| < CONFIG.registryCapacity && Eligible(CONFIG, t.st, P0, e.wall)
    ensures Poll(CONFIG, s, P0, r, None, e, 5.0) ==
            Polled(Txn(Issue(CONFIG, Demanded(t.st, r, e), P0, r, e), true),
                   Granted(NextGid(t.st), t.st.breaker.state == RECOVERY), Some(e.wall))
  {
    hide Refresh, Issue, NextGid;
    var d := Demanded(t.st, r, e);
    assert t.st.pending[r := d.pending[r]] == d.pending;
    assert Register(CONFIG, t, P0, r, None, e) == Registered(Txn(d, true), e.wall);
    HeadIsUnique(d.pending, P0, r);
    assert Servable(CONFIG, d, P0, e.wall);
    assert MayGrant(CONFIG, d, P0, r, e.wall);
    hide MayGrant, Register;
    assert TryGrant(CONFIG, d, P0, r, e) == Issued(NextGid(d), d.breaker.state == RECOVERY);
    SameGid(t.st, d);
  }

  lemma SameGid(s: State, d: State)
    requires d == s.(pending := d.pending)
    ensures NextGid(s) == NextGid(d)
  {
  }

  lemma StartsEligible(s: State, wall: real)
    requires s.usage.p0 == 0
    ensures CONFIG.Valid() && Eligible(CONFIG, s, P0, wall)
  {
    ConfigOk();
    assert CONFIG.Share(P0) > 0.0 by { SharesPartitionTheRate(CONFIG); }
    NotNegative(CONFIG.Share(P0), Elapsed(s, wall));
  }

  lemma NotNegative(a: real, b: real)
    requires a >= 0.0 && b >= 0.0
    ensures a * b >= 0.0
  {
  }

  lemma FirstPoll()
    ensures CONFIG.Valid()
    ensures Poll(CONFIG, NEW, P0, 1, None, EARLY, 5.0) == Polled(Txn(GRANTED, true), Granted(FIRST, false), Some(0.0))
  {
    hide Refresh, Poll, Eligible;
    RefreshNew();
    StartsEligible(NEW, 0.0);
    AloneIsGranted(NEW, Txn(NEW, false), 1, EARLY);
    assert Issue(CONFIG, Demanded(NEW, 1, EARLY), P0, 1, EARLY) == GRANTED;
  }

  lemma ProbePoll()
    ensures CONFIG.Valid()
    ensures Poll(CONFIG, TRIPPED, P0, 2, None, LATE, 5.0) ==
            Polled(Txn(Probing(false), true), Granted(PROBE, true), Some(5.0))
  {
    hide Refresh, Poll, Eligible;
    RefreshTripped();
    StartsEligible(RECOVERING, 5.0);
    AloneIsGranted(TRIPPED, Txn(RECOVERING, true), 2, LATE);
    assert Issue(CONFIG, Demanded(RECOVERING, 2, LATE), P0, 2, LATE) == Probing(false);
  }

  lemma FirstReport()
    ensures CONFIG.Valid() && Record(CONFIG, Txn(GRANTED, false), FIRST, RATE_LIMIT, 0.0) == (Txn(TRIPPED, true), APPLIED)
  {
    ConfigOk();
    assert CONFIG.CooldownFor(1) == 5.0;
    assert CloseGrant(GRANTED.grants, FIRST, RATE_LIMIT) == TRIPPED.grants;
    hide CloseGrant;
    assert ApplyOpen(CONFIG, GRANTED.(grants := TRIPPED.grants), 0.0, true) == TRIPPED;
  }

  lemma ProbePrepare()
    ensures PrepareSend(Txn(Probing(false), false), PROBE) == (Txn(Probing(true), true), true)
  {
    var s := Probing(false);
    assert s.grants[PROBE := s.grants[PROBE].(sent := true)] == Probing(true).grants;
    assert MarkSent(MarkProbe(s), PROBE) == Probing(true);
  }

  // -------------------------------------------------------------------- worlds

  const H0 := InitialHistory(0.0)
  const H1 := H0.(granted := {FIRST})
  const H2 := H1.(applied := {FIRST}, trips := [Trip(FIRST, true)], bumps := 1)
  const H3 := H2.(granted := {FIRST, PROBE}, wallNow := 5.0)

  const START := InitialWorld(CONFIG, 0.0, 0.0, 0)
  const SPAWNED := START.(live := {1})
  const WAITING := SPAWNED.(waiters := map[1 := Waiter(P0, 1, None)], used := {1})
  const SERVED := World(GRANTED, 0, {1}, map[], {}, map[], {1}, H1)
  const LIMITED := World(TRIPPED, 0, {1}, map[], {}, map[], {1}, H2)
  const ASKING := World(TRIPPED, 0, {1}, map[], {}, map[2 := Waiter(P0, 1, None)], {1, 2}, H2)

  function ProbeWorld(marked: bool): World {
    World(Probing(marked), 0, {1}, map[PROBE := 1], {PROBE}, map[], {1, 2}, H3)
  }

  const WORLDS := [START, SPAWNED, WAITING, SERVED, LIMITED, ASKING, ProbeWorld(false), ProbeWorld(true)]

  const ACTIONS := [
    Spawn(1), Enter(1, P0, 1), PollOnce(1, EARLY, 5.0, Persisted), Report(FIRST, RATE_LIMIT, EARLY, Persisted),
    Enter(2, P0, 1), PollOnce(2, LATE, 5.0, Persisted), Prepare(PROBE, LATE, Persisted)]

  ghost predicate Leads(w: World, a: Action, w': World) {
    CONFIG.Valid() && Enabled(w, a) && Next(CONFIG, w, a) == w'
  }

  lemma Arrives()
    ensures Leads(START, ACTIONS[0], SPAWNED) && Leads(SPAWNED, ACTIONS[1], WAITING)
    ensures Leads(LIMITED, ACTIONS[4], ASKING)
  {
    ConfigOk();
  }

  lemma FirstGrant()
    ensures Leads(WAITING, ACTIONS[2], SERVED)
  {
    FirstPoll();
    hide Poll;
  }

  lemma FirstTrip()
    ensures Leads(SERVED, ACTIONS[3], LIMITED)
  {
    RefreshGranted();
    FirstReport();
    hide Refresh, Record;
  }

  lemma ProbeGrant()
    ensures Leads(ASKING, ACTIONS[5], ProbeWorld(false))
  {
    ProbePoll();
    hide Poll;
  }

  lemma ProbeMarked()
    ensures Leads(ProbeWorld(false), ACTIONS[6], ProbeWorld(true))
  {
    RefreshProbing(false);
    ProbePrepare();
    hide Refresh, PrepareSend;
  }

  /** The worlds are a run of the protocol. */
  lemma WorldsAreARun()
    ensures CONFIG.Valid() && Run(CONFIG, WORLDS, ACTIONS)
  {
    ConfigOk();
    Arrives();
    FirstGrant();
    FirstTrip();
    ProbeGrant();
    ProbeMarked();
    hide Enabled, Next;
    forall i | 0 <= i < |ACTIONS| ensures Leads(WORLDS[i], ACTIONS[i], WORLDS[i + 1]) {
    }
  }

  const LOST := Report(PROBE, RATE_LIMIT, LATE, Lost)

  lemma LastWorldFits()
    ensures WorldOk(CONFIG, ProbeWorld(true))
  {
    hide Run, WorldOk;
    WorldsAreARun();
    RunInvariant(CONFIG, WORLDS, ACTIONS, 7);
    assert WORLDS[7] == ProbeWorld(true);
  }

  lemma LostReportEnabled()
    ensures var w := ProbeWorld(true);
            Enabled(w, LOST) && HoldsSlot(w.st, PROBE) && PROBE in w.locks && w.locks[PROBE] == 1 && 1 in w.live
  {
  }

  lemma LostReportReleases()
    ensures CONFIG.Valid() && Enabled(ProbeWorld(true), LOST)
    ensures var w := Next(CONFIG, ProbeWorld(true), LOST); HoldsSlot(w.st, PROBE) && PROBE !in w.locks
  {
    ConfigOk();
    LastWorldFits();
    LostReportEnabled();
    hide Next, WorldOk, Enabled, HoldsSlot, Probing;
    SlotGuardedAfterLostWrite(CONFIG, ProbeWorld(true), PROBE, RATE_LIMIT, LATE);
  }

  /**
   * The exception of `SlotGuardedAfterLostWrite` occurs in a run: the probe's
   * own process, alive and holding the witness, reports a rate limit, the
   * write is lost, and the slot is left filled with its witness free.
   */
  lemma EarlyReleaseOccurs()
    ensures CONFIG.Valid() && Run(CONFIG, WORLDS, ACTIONS)
    ensures var w := WORLDS[7];
            && Enabled(w, LOST) && HoldsSlot(w.st, PROBE) && PROBE in w.locks && w.locks[PROBE] == 1 && 1 in w.live
            && HoldsSlot(Next(CONFIG, w, LOST).st, PROBE) && PROBE !in Next(CONFIG, w, LOST).locks
  {
    hide Run, Next, Enabled, HoldsSlot, WorldOk;
    WorldsAreARun();
    LostReportEnabled();
    LostReportReleases();
    assert WORLDS[7] == ProbeWorld(true);
  }
}
