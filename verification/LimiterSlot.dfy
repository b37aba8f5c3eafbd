/**
 * Who may free the recovery slot, when a witness file may be removed, and
 * exactly when a failed write leaves the slot guarded.
 */
module LimiterSlot {
  import opened Basics
  import opened LimiterConfig
  import opened LimiterState
  import opened LimiterSpec
  import opened LimiterInvariants
  import opened LimiterProtocol
  import opened LimiterHistory
  import opened LimiterWorld
  import opened LimiterSafety
  import GrantIds

  // ---------------------------------------------------------------- the slot

  lemma RefreshKeepsSlot(cfg: Config, s: State, e: Env)
    requires cfg.Valid() && s.breaker.probe.Some? && s.breaker.state == RECOVERY
    requires !HolderGone(s.breaker.probe.value, e)
    ensures HoldsSlot(Refresh(cfg, s, e).st, s.breaker.probe.value.holder)
    ensures Refresh(cfg, s, e).st.breaker.state == RECOVERY
    ensures Refresh(cfg, s, e).st.epoch == s.epoch
  {
    HeadFrames(cfg, s, e);
    var t := Steps(cfg, s, e).pruned;
    assert t.st.breaker.state == RECOVERY && t.st.epoch == s.epoch;
    var t' := ProbePhase(cfg, t, e);
    assert EvictPhase(cfg, ReconcilePhase(CooldownPhase(t', e), e), e).st.breaker == t'.st.breaker;
  }

  lemma NoGrantWhileSlotIsHeld(cfg: Config, s: State, p: Prio, r: Rid, anchor: Option<real>, e: Env, budget: real)
    requires cfg.Valid() && Inv(cfg, s)
    requires var t := Refresh(cfg, s, e).st; t.breaker.state == RECOVERY && t.breaker.probe.Some?
    ensures !Poll(cfg, s, p, r, anchor, e, budget).result.Granted?
  {
    hide Refresh;
    var t := Refresh(cfg, s, e);
    match Register(cfg, t, p, r, anchor, e)
    case Full =>
    case Stale =>
    case Registered(t', a) =>
      assert t'.st.breaker == t.st.breaker;
      assert TryGrant(cfg, t'.st, p, r, e) == NoGrant;
  }

  lemma ReportKeepsOthersSlot(cfg: Config, t: Txn, g: Gid, g': Gid, o: Outcome, wall: real)
    requires cfg.Valid() && Inv(cfg, t.st) && HoldsSlot(t.st, g) && g' != g
    ensures HoldsSlot(Record(cfg, t, g', o, wall).0.st, g)
  {
    InvIds(cfg, t.st);
    assert BreakerShape(cfg, t.st.breaker);
    assert Open(t.st, g') ==> g'.epoch != t.st.epoch;
  }

  /** While the holder is not found gone, only its own report can take it out of the slot. */
  lemma TxnKeepsSlot(cfg: Config, w: World, a: Action, g: Gid)
    requires cfg.Valid() && Inv(cfg, w.st) && Enabled(w, a) && a.Writes()
    requires HoldsSlot(w.st, g) && !HolderGone(w.st.breaker.probe.value, a.e) && !(a.Report? && a.g == g)
    ensures HoldsSlot(TxnOf(cfg, w, a).st, g)
  {
    hide Run, Next, WorldOk, Agrees, Poll, Record, PrepareSend, Select, Register, Issue, TryGrant, ClockRule,
      ProbePhase, ReconcilePhase, FinishPoll, FinishReport, Evolves, SlotDiscipline, IssuedIds, HistoryOfRecord,
      HistoryOfRefresh, RunTxn;
    assert BreakerShape(cfg, w.st.breaker);
    RefreshKeepsSlot(cfg, w.st, a.e);
    RefreshKeeps(cfg, w.st, a.e);
    var t := Refresh(cfg, w.st, a.e);
    hide Refresh, Inv;
    match a
    case PollOnce(r, e, budget, _) =>
      NoGrantWhileSlotIsHeld(cfg, w.st, w.waiters[r].prio, r, w.waiters[r].anchor, e, budget);
      PollAfterRefresh(cfg, w.st, w.waiters[r].prio, r, w.waiters[r].anchor, e, budget);
    case Prepare(g', _, _) => PrepareSlot(t, g');
    case Report(g', o, e, _) => ReportKeepsOthersSlot(cfg, t, g, g', o, e.wall);
    case _ =>
  }

  /**
   * The slot leaves its holder only through the holder's own report, or once
   * nobody holds the holder's witness and there is a reason for that: its
   * process died, the grant was never returned, or its own process let go of
   * the witness while reporting a rate limit. No clock reading frees it.
   */
  lemma SlotFreedByHolderOrDeath(cfg: Config, w: World, a: Action, g: Gid)
    requires cfg.Valid() && WorldOk(cfg, w) && Enabled(w, a)
    requires HoldsSlot(w.st, g) && !HoldsSlot(Next(cfg, w, a).st, g)
    ensures (a.Report? && a.g == g) || (a.Writes() && g !in w.locks && Excused(w.h, g))
  {
    hide Run, WorldOk, Inv, Agrees, Refresh, Poll, Record, PrepareSend, Select, TxnOf, Evolves;
    WorldInv(cfg, w);
    NextDocument(cfg, w, a);
    hide Next;
    if a.Writes() && !HolderGone(w.st.breaker.probe.value, a.e) && !(a.Report? && a.g == g) {
      TxnKeepsSlot(cfg, w, a, g);
    }
  }

  lemma PrepareSlot(t: Txn, g: Gid)
    ensures forall h :: HoldsSlot(t.st, h) ==> HoldsSlot(PrepareSend(t, g).0.st, h)
  {
  }

  /**
   * A dead holder: with its send marker set the breaker starts a new epoch at
   * the same level and arms the full cooldown; without it only the slot is
   * emptied. Either way the holder's record is closed neutrally.
   */
  lemma DeadHolderIsResolved(cfg: Config, s: State, e: Env)
    requires cfg.Valid() && Inv(cfg, s) && s.breaker.probe.Some? && HolderGone(s.breaker.probe.value, e)
    ensures var p := s.breaker.probe.value;
            var s' := Refresh(cfg, s, e).st;
            && s'.breaker.probe == None && s'.breaker.level == s.breaker.level && 1 <= s.breaker.level <= |cfg.cooldowns|
            && (p.holder in s'.grants ==> s'.grants[p.holder].outcome == Some(if p.marker then UNKNOWN else NOT_SENT))
            && (if p.marker then
                  && s'.epoch == s.epoch + 1 && s'.breaker.streak == 0
                  && s'.breaker.cooldownUntil == e.wall + cfg.cooldowns[s.breaker.level - 1]
                  && s'.breaker.state == (if e.wall >= s'.breaker.cooldownUntil then RECOVERY else OPEN)
                else
                  s'.epoch == s.epoch && s'.breaker == s.breaker.(probe := None))
  {
    hide Refresh, ClockRule, PrunePending, DropLeaked, ProbePhase, CooldownPhase, Accounts, IssuedIds, DemandsCapped;
    var p := s.breaker.probe.value;
    var k := Steps(cfg, s, e);
    HeadFrames(cfg, s, e);
    assert Open(s, p.holder) && s.breaker.state == RECOVERY && 1 <= s.breaker.level <= |cfg.cooldowns|;
    hide SlotDiscipline, BreakerShape, Inv;
    ResolvedFields(cfg, k.pruned, p, e);
    var s' := Refresh(cfg, s, e).st;
    assert s'.breaker == k.cooled.st.breaker && s'.epoch == k.cooled.st.epoch;
    assert p.holder in s'.grants ==> s'.grants[p.holder] == k.reconciled.st.grants[p.holder];
  }

  lemma ResolvedFields(cfg: Config, t: Txn, p: Probe, e: Env)
    requires cfg.Valid() && t.st.breaker.probe == Some(p) && HolderGone(p, e) && Open(t.st, p.holder)
    requires t.st.breaker.state == RECOVERY && 1 <= t.st.breaker.level <= |cfg.cooldowns|
    ensures var s' := CooldownPhase(ProbePhase(cfg, t, e), e).st;
            && s'.breaker.probe == None && s'.breaker.level == t.st.breaker.level
            && p.holder in s'.grants && s'.grants[p.holder].outcome == Some(if p.marker then UNKNOWN else NOT_SENT)
            && (if p.marker then
                  && s'.epoch == t.st.epoch + 1 && s'.breaker.streak == 0
                  && s'.breaker.cooldownUntil == e.wall + cfg.cooldowns[t.st.breaker.level - 1]
                  && s'.breaker.state == (if e.wall >= s'.breaker.cooldownUntil then RECOVERY else OPEN)
                else
                  s'.epoch == t.st.epoch && s'.breaker == t.st.breaker.(probe := None))
  {
  }

  // ------------------------------------------------------------ live owners

  lemma ProbePhaseKeepsOpen(cfg: Config, t: Txn, e: Env, g: Gid)
    requires cfg.Valid() && SlotDiscipline(t.st) && Open(t.st, g) && !t.st.grants[g].probe
    ensures var s' := ProbePhase(cfg, t, e).st; Open(s', g) && s'.grants[g] == t.st.grants[g]
  {
  }

  /** An open record whose owner is not provably dead survives the rest of a refresh. */
  lemma TailKeepsOpen(cfg: Config, t: Txn, e: Env, g: Gid)
    requires Open(t.st, g) && !Orphaned(t.st.grants[g], e)
    ensures Open(EvictPhase(cfg, ReconcilePhase(CooldownPhase(t, e), e), e).st, g)
  {
    var c := CooldownPhase(t, e);
    assert c.st.grants == t.st.grants;
    hide CooldownPhase;
    assert ReconcilePhase(c, e).st.grants[g] == t.st.grants[g];
  }

  lemma RefreshKeepsOpen(cfg: Config, s: State, e: Env, g: Gid)
    requires cfg.Valid() && SlotDiscipline(s) && Open(s, g) && !s.grants[g].probe && !Orphaned(s.grants[g], e)
    ensures Open(Refresh(cfg, s, e).st, g)
  {
    HeadFrames(cfg, s, e);
    var t := PrunePending(ClockRule(cfg, DropLeaked(Txn(s, false), e), e), e);
    assert t == Steps(cfg, s, e).pruned;
    hide PrunePending, ClockRule, DropLeaked;
    assert SlotDiscipline(t.st);
    ProbePhaseKeepsOpen(cfg, t, e, g);
    TailKeepsOpen(cfg, ProbePhase(cfg, t, e), e, g);
    hide ProbePhase, CooldownPhase, ReconcilePhase, EvictPhase, SlotDiscipline;
  }

  lemma TailFate(cfg: Config, t: Txn, e: Env, g: Gid)
    requires Open(t.st, g) && !t.st.grants[g].probe
    ensures var s' := EvictPhase(cfg, ReconcilePhase(CooldownPhase(t, e), e), e).st;
            var before := t.st.grants[g];
            var dead := before.boot != e.boot
                        || (before.pid != e.pid && before.pid in e.liveness && e.liveness[before.pid] == DEAD);
            if !dead then g in s'.grants && s'.grants[g] == before
            else if e.wall - before.issuedWall >= cfg.maxLifetime then g !in s'.grants
            else g in s'.grants && s'.grants[g] == before.(outcome := Some(if before.sent then UNKNOWN else NOT_SENT))
  {
    var c := CooldownPhase(t, e);
    assert c.st.grants == t.st.grants;
    hide CooldownPhase;
    assert ReconcilePhase(c, e).st.grants[g] == Reconciled(t.st.grants[g], e);
  }

  /**
   * What a refresh makes of an ordinary open grant. It is never evicted as
   * such: it stays as it is exactly when its owner is not provably dead. It is
   * closed otherwise, and past its retention closed and removed at once.
   */
  lemma FateOfOpenGrant(cfg: Config, s: State, e: Env, g: Gid)
    requires cfg.Valid() && SlotDiscipline(s) && Open(s, g) && !s.grants[g].probe
    ensures var s' := Refresh(cfg, s, e).st;
            var before := s.grants[g];
            var dead := before.boot != e.boot
                        || (before.pid != e.pid && before.pid in e.liveness && e.liveness[before.pid] == DEAD);
            if !dead then g in s'.grants && s'.grants[g] == before
            else if e.wall - before.issuedWall >= cfg.maxLifetime then g !in s'.grants
            else g in s'.grants && s'.grants[g] == before.(outcome := Some(if before.sent then UNKNOWN else NOT_SENT))
  {
    HeadFrames(cfg, s, e);
    var t := PrunePending(ClockRule(cfg, DropLeaked(Txn(s, false), e), e), e);
    assert t == Steps(cfg, s, e).pruned;
    hide PrunePending, ClockRule, DropLeaked;
    assert SlotDiscipline(t.st);
    ProbePhaseKeepsOpen(cfg, t, e, g);
    TailFate(cfg, ProbePhase(cfg, t, e), e, g);
    hide ProbePhase, CooldownPhase, ReconcilePhase, EvictPhase, SlotDiscipline;
  }

  lemma TxnKeepsOpen(cfg: Config, w: World, a: Action, g: Gid)
    requires cfg.Valid() && Inv(cfg, w.st) && Enabled(w, a) && a.Writes()
    requires Open(Refresh(cfg, w.st, a.e).st, g)
    requires !(a.Report? && a.g == g) && !(a.Prepare? && a.g == g)
    ensures Open(TxnOf(cfg, w, a).st, g)
  {
    hide Run, Next, WorldOk, Inv, Agrees, Refresh, Poll, Record, PrepareSend, Select, Evolves;
    var t := Refresh(cfg, w.st, a.e);
    match a
    case PollOnce(r, e, budget, wr) =>
      PollKeepsOpen(cfg, w.st, w.waiters[r].prio, r, w.waiters[r].anchor, e, budget, g);
    case Prepare(g', _, _) => OthersUntouched(cfg, t, g', OK, a.e.wall, g);
    case Report(g', o, _, _) => OthersUntouched(cfg, t, g', o, a.e.wall, g);
    case _ =>
  }

  /** No step but the owner's own calls closes the open grant of a live process. */
  lemma LiveOwnerKeepsGrant(cfg: Config, w: World, a: Action, g: Gid)
    requires cfg.Valid() && WorldOk(cfg, w) && Enabled(w, a)
    requires Open(w.st, g) && !w.st.grants[g].probe
    requires w.st.grants[g].pid in w.live && w.st.grants[g].boot == w.boot
    requires !(a.Report? && a.g == g) && !(a.Prepare? && a.g == g)
    ensures Open(Next(cfg, w, a).st, g)
  {
    hide Run, Next, WorldOk, Inv, Agrees, Refresh, Poll, Record, PrepareSend, Select, TxnOf, Evolves;
    WorldInv(cfg, w);
    InvIds(cfg, w.st);
    NextDocument(cfg, w, a);
    if a.Writes() {
      RefreshKeepsOpen(cfg, w.st, a.e, g);
      TxnKeepsOpen(cfg, w, a, g);
    }
  }

  lemma OthersUntouched(cfg: Config, t: Txn, g': Gid, o: Outcome, wall: real, g: Gid)
    requires cfg.Valid() && Open(t.st, g) && g' != g
    ensures Open(Record(cfg, t, g', o, wall).0.st, g) && Open(PrepareSend(t, g').0.st, g)
  {
  }

  lemma PollKeepsOpen(cfg: Config, s: State, p: Prio, r: Rid, anchor: Option<real>, e: Env, budget: real, g: Gid)
    requires cfg.Valid() && Inv(cfg, s) && Open(Refresh(cfg, s, e).st, g)
    ensures Open(Poll(cfg, s, p, r, anchor, e, budget).t.st, g)
  {
    hide Run, Next, Enabled, WorldOk, Inv, Agrees, Refresh, Record, PrepareSend, Select, Register, TryGrant,
      ClockRule, ProbePhase, ReconcilePhase, EvictPhase, FinishPoll, FinishReport, TxnOf, Evolves, SlotDiscipline,
      IssuedIds, HistoryOfRecord, HistoryOfRefresh, RunTxn;
    RefreshKeeps(cfg, s, e);
    var t := Refresh(cfg, s, e);
    RegisterKeeps(cfg, t, p, r, anchor, e);
    match Register(cfg, t, p, r, anchor, e)
    case Full =>
    case Stale =>
    case Registered(t', a) =>
      InvIds(cfg, t'.st);
      SelectFrame(cfg, t', p, r, a, e, budget);
  }

  // -------------------------------------------------------------- witness files

  /**
   * Pruning on stale knowledge is safe: a witness removed because some
   * earlier read found its grant terminal never belongs to a grant that is
   * open, then or at any later time, nor to a slot's holder.
   */
  lemma PrunedWitnessIsInert(cfg: Config, ws: seq<World>, acts: seq<Action>, i: nat, j: nat, g: Gid)
    requires Run(cfg, ws, acts) && i <= j < |ws| && Enabled(ws[i], Unlink(g))
    ensures !Open(ws[j].st, g) && !HoldsSlot(ws[j].st, g)
  {
    hide Run, Next, Inv, Refresh, Poll, Record, PrepareSend, Select, TxnOf, Evolves;
    RunInvariant(cfg, ws, acts, i);
    RunInvariant(cfg, ws, acts, j);
    RunEvolves(cfg, ws, acts, i, j);
    assert Done(ws[i].st, g) by { assert AllDone(ws[i].st, ws[i].h.known); }
    InvIds(cfg, ws[j].st);
    DoneStable(ws[i].st, ws[j].st, {g});
  }

  /**
   * The same of the file itself: a file that a pruner reads as the witness of
   * an id it may remove is not the witness file of any grant that is open or
   * holds the slot, then or at any later time.
   */
  lemma PrunedFileIsInert(cfg: Config, ws: seq<World>, acts: seq<Action>, i: nat, j: nat, g: Gid,
                          stateFile: string, name: string, h: Gid)
    requires Run(cfg, ws, acts) && i <= j < |ws| && Enabled(ws[i], Unlink(g))
    requires GrantIds.PrunedGid(stateFile, name) == Some(GrantIds.GidText(g))
    requires Open(ws[j].st, h) || HoldsSlot(ws[j].st, h)
    ensures name != GrantIds.WitnessName(stateFile, GrantIds.GidText(h))
  {
    hide Run, Enabled;
    PrunedWitnessIsInert(cfg, ws, acts, i, j, g);
    if name == GrantIds.WitnessName(stateFile, GrantIds.GidText(h)) {
      GrantIds.WitnessNameRoundTrip(stateFile, h);
      GrantIds.GidTextInjective(g, h);
    }
  }

  /** Whatever was terminal in any earlier read is not open now, however stale the read. */
  lemma StaleTerminalSetIsSafe(cfg: Config, ws: seq<World>, acts: seq<Action>, i: nat, j: nat, g: Gid)
    requires Run(cfg, ws, acts) && i <= j < |ws| && g in Terminals(ws[i].st)
    ensures !Open(ws[j].st, g)
  {
    TerminalForever(cfg, ws, acts, i, j, g);
  }

  /** A witness whose lock is held always has its file, so "no such file" is never said of a held witness. */
  lemma HeldWitnessHasItsFile(cfg: Config, ws: seq<World>, acts: seq<Action>, i: nat, g: Gid)
    requires Run(cfg, ws, acts) && i < |ws| && g in ws[i].locks
    ensures g in ws[i].files && ws[i].locks[g] in ws[i].live
  {
    RunInvariant(cfg, ws, acts, i);
  }

  // ------------------------------------------------------------- failed writes

  /**
   * The holder's process reports its result and the write fails with the old
   * file in place. Its witness is still locked afterwards exactly when the
   * result was not a rate limit: tripping lets go of the witness before the
   * write is attempted.
   */
  lemma SlotGuardedAfterLostWrite(cfg: Config, w: World, g: Gid, o: Outcome, e: Env)
    requires cfg.Valid() && WorldOk(cfg, w) && Enabled(w, Report(g, o, e, Lost))
    requires HoldsSlot(w.st, g) && g in w.locks && w.locks[g] == e.pid
    ensures HoldsSlot(Next(cfg, w, Report(g, o, e, Lost)).st, g)
    ensures g in Next(cfg, w, Report(g, o, e, Lost)).locks <==> o != RATE_LIMIT
  {
    hide Run, WorldOk, Inv, Agrees, Refresh, Poll, Record, PrepareSend, Select, Register, Issue, TryGrant, ClockRule,
      ProbePhase, ReconcilePhase, EvictPhase, FinishPoll, TxnOf, Evolves, SlotDiscipline, IssuedIds, HistoryOfRecord,
      HistoryOfRefresh;
    hide LocksAfterRefresh, QueueOk;
    WorldInv(cfg, w);
    assert BreakerShape(cfg, w.st.breaker);
    RefreshKeepsSlot(cfg, w.st, e);
    RefreshKeeps(cfg, w.st, e);
    var t := Refresh(cfg, w.st, e);
    InvIds(cfg, t.st);
    RecordKeeps(cfg, t, g, o, e.wall);
    RecordFrame(cfg, t, g, o, e.wall, w.h);
    NothingUnlocked(w, e);
  }

  /**
   * What the early release costs: the next refresh may take the holder for
   * dead. Once the request had been marked as sent, the rate limit it
   * reported never raises the level; the retry is answered DUPLICATE.
   */
  lemma LostRateLimitIsNotEscalated(cfg: Config, s: State, g: Gid, e: Env, e': Env)
    requires cfg.Valid() && Inv(cfg, s) && HoldsSlot(s, g) && s.breaker.probe.value.marker && !e.witnessAlive
    requires e.wall - s.grants[g].issuedWall < cfg.maxLifetime && e'.wall - s.grants[g].issuedWall < cfg.maxLifetime
    ensures var s1 := Refresh(cfg, s, e).st;
            && s1.breaker.level == s.breaker.level && s1.epoch == s.epoch + 1
            && Record(cfg, Refresh(cfg, s1, e'), g, RATE_LIMIT, e'.wall).1 == DUPLICATE
  {
    DeadHolderIsResolved(cfg, s, e);
    var s1 := Refresh(cfg, s, e).st;
    TerminalStays(cfg, s, e, g);
    YoungTerminalStays(cfg, s1, e', g);
    hide Refresh, Inv;
  }

  /** The holder found gone is closed, and kept while it is younger than the replay window. */
  lemma TerminalStays(cfg: Config, s: State, e: Env, g: Gid)
    requires cfg.Valid() && Inv(cfg, s) && HoldsSlot(s, g) && HolderGone(s.breaker.probe.value, e)
    requires e.wall - s.grants[g].issuedWall < cfg.maxLifetime
    ensures var s1 := Refresh(cfg, s, e).st;
            g in s1.grants && s1.grants[g].outcome.Some? && s1.grants[g].issuedWall == s.grants[g].issuedWall
  {
    HeadFrames(cfg, s, e);
    var t := Steps(cfg, s, e).pruned;
    hide Inv, Accounts, IssuedIds, PrunePending, ClockRule, DropLeaked;
    var t' := ProbePhase(cfg, t, e);
    assert Terminal(t'.st, g) && t'.st.grants[g].issuedWall == s.grants[g].issuedWall;
    TailKeepsTerminal(cfg, t', e, g);
    hide ProbePhase, CooldownPhase, ReconcilePhase, EvictPhase;
  }

  lemma TailKeepsTerminal(cfg: Config, t: Txn, e: Env, g: Gid)
    requires Terminal(t.st, g) && e.wall - t.st.grants[g].issuedWall < cfg.maxLifetime
    ensures var s' := EvictPhase(cfg, ReconcilePhase(CooldownPhase(t, e), e), e).st;
            g in s'.grants && s'.grants[g] == t.st.grants[g]
  {
    var c := CooldownPhase(t, e);
    assert c.st.grants == t.st.grants;
    hide CooldownPhase;
    assert ReconcilePhase(c, e).st.grants[g] == t.st.grants[g];
  }

  lemma YoungTerminalStays(cfg: Config, s: State, e: Env, g: Gid)
    requires cfg.Valid() && Terminal(s, g) && e.wall - s.grants[g].issuedWall < cfg.maxLifetime
    ensures Terminal(Refresh(cfg, s, e).st, g)
  {
    HeadFrames(cfg, s, e);
    var t := Steps(cfg, s, e).pruned;
    hide PrunePending, ClockRule, DropLeaked;
    var t' := ProbePhase(cfg, t, e);
    assert g in t'.st.grants && t'.st.grants[g] == t.st.grants[g];
    TailKeepsTerminal(cfg, t', e, g);
    hide ProbePhase, CooldownPhase, ReconcilePhase, EvictPhase;
  }

  /**
   * A failed write is not proof that nothing happened: when the error comes
   * after the new file is visible, the outcome is in the document although
   * the caller was not answered APPLIED, and its retry is answered DUPLICATE.
   */
  lemma VisibleFailureIsApplied(cfg: Config, w: World, g: Gid, o: Outcome, e: Env, e': Env)
    requires cfg.Valid() && WorldOk(cfg, w) && Enabled(w, Report(g, o, e, Visible))
    requires g in w.st.grants && e'.wall - w.st.grants[g].issuedWall < cfg.maxLifetime
    requires Open(Refresh(cfg, w.st, e).st, g)
    ensures Applies(cfg, w, Report(g, o, e, Visible)) == None
    ensures var s' := Next(cfg, w, Report(g, o, e, Visible)).st;
            && Terminal(s', g) && s'.grants[g].outcome == Some(o)
            && Record(cfg, Refresh(cfg, s', e'), g, o, e'.wall).1 == DUPLICATE
  {
    hide Refresh, Record, Inv, Agrees, Next, TxnOf, LocksOk, SlotWatched, QueueOk;
    var a := Report(g, o, e, Visible);
    NextDocument(cfg, w, a);
    ReportAnswers(cfg, w, g, o, e, Visible);
    TxnEvolves(cfg, w, a);
    YoungTerminalStays(cfg, TxnOf(cfg, w, a).st, e', g);
    ClosedAnswersDuplicate(cfg, Refresh(cfg, TxnOf(cfg, w, a).st, e'), g, o, e'.wall);
  }

  /** A report of an open grant closes it in the working copy, and answers APPLIED only if that persists. */
  lemma ReportAnswers(cfg: Config, w: World, g: Gid, o: Outcome, e: Env, wr: Write)
    requires cfg.Valid() && Inv(cfg, w.st) && Enabled(w, Report(g, o, e, wr))
    requires Open(Refresh(cfg, w.st, e).st, g)
    ensures var t := TxnOf(cfg, w, Report(g, o, e, wr));
            t.dirty && Terminal(t.st, g) && t.st.grants[g].outcome == Some(o)
    ensures Applies(cfg, w, Report(g, o, e, wr)) == if wr == Persisted then Some(g) else None
  {
    hide Run, Next, Enabled, WorldOk, Inv, Agrees, Refresh, Poll, PrepareSend, Select, Evolves;
    var t := Refresh(cfg, w.st, e);
    RefreshKeeps(cfg, w.st, e);
    RecordKeeps(cfg, t, g, o, e.wall);
  }

  lemma ClosedAnswersDuplicate(cfg: Config, t: Txn, g: Gid, o: Outcome, wall: real)
    requires cfg.Valid() && Terminal(t.st, g)
    ensures Record(cfg, t, g, o, wall) == (t, DUPLICATE)
  {
  }
}
