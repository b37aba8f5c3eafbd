/**
 * The history of a run and the document agree: what has been applied,
 * recorded OK, tripped or closed is closed for good, the epoch counts the
 * trips, the level counts the escalations and the streak counts the OKs.
 */
module LimiterHistory {
  import opened Basics
  import opened LimiterConfig
  import opened LimiterState
  import opened LimiterSpec
  import opened LimiterInvariants
  import opened LimiterProtocol

  /** Issued, and never again open: absent or terminal. */
  predicate Done(s: State, g: Gid) {
    g.num <= s.lastNum && (g in s.grants ==> s.grants[g].outcome != None)
  }

  predicate AllDone(s: State, gs: set<Gid>) { forall g :: g in gs ==> Done(s, g) }

  /** Each trip was caused by a grant of the epoch it ended, so the i-th trip ended epoch i + 1. */
  predicate TripsOk(s: State, trips: seq<Trip>) {
    && |trips| == s.epoch - 1
    && forall i :: 0 <= i < |trips| ==> trips[i].cause.epoch == i + 1 && Done(s, trips[i].cause)
  }

  /** Closings have distinct causes, none of which tripped the breaker. */
  predicate ClosersOk(s: State, h: History) {
    && (forall i :: 0 <= i < |h.closers| ==> Done(s, h.closers[i]))
    && (forall i, j :: 0 <= i < j < |h.closers| ==> h.closers[i] != h.closers[j])
    && (forall i, j :: 0 <= i < |h.closers| && 0 <= j < |h.trips| ==> h.closers[i] != h.trips[j].cause)
  }

  /** The OKs of the current epoch: while recovering, the streak is their number. */
  predicate StreakOk(s: State, ok: set<Gid>) {
    && AllDone(s, ok)
    && (forall g :: g in ok ==> g.epoch == s.epoch)
    && (s.breaker.state == OPEN ==> ok == {})
    && (s.breaker.state == RECOVERY ==> s.breaker.streak == |ok|)
  }

  predicate LevelOk(cfg: Config, s: State, bumps: nat) {
    s.breaker.level == Min(|cfg.cooldowns|, bumps)
  }

  predicate GrantedOk(s: State, granted: set<Gid>) {
    |granted| <= s.totalGrants && forall g :: g in granted ==> g.num <= s.lastNum
  }

  /** Everything a transaction's history says, against the document it leaves. */
  predicate Agrees(cfg: Config, s: State, h: History) {
    && TripsOk(s, h.trips) && ClosersOk(s, h) && StreakOk(s, h.ok) && LevelOk(cfg, s, h.bumps)
    && AllDone(s, h.applied) && AllDone(s, h.known) && GrantedOk(s, h.granted)
  }

  lemma DoneStable(s: State, s': State, gs: set<Gid>)
    requires Evolves(s, s') && AllDone(s, gs)
    ensures AllDone(s', gs)
  {
  }

  /** A step that leaves epoch, level, state and streak alone keeps the agreement. */
  lemma AgreesFrame(cfg: Config, s: State, s': State, h: History)
    requires Agrees(cfg, s, h) && Evolves(s, s') && s.totalGrants <= s'.totalGrants
    requires s'.epoch == s.epoch && s'.breaker.level == s.breaker.level
    requires s'.breaker.state == s.breaker.state && s'.breaker.streak == s.breaker.streak
    ensures Agrees(cfg, s', h)
  {
    DoneStable(s, s', h.ok);
    DoneStable(s, s', h.applied);
    DoneStable(s, s', h.known);
  }

  /** A trip by a grant of the current epoch that is closed in the new document. */
  lemma AgreesTrip(cfg: Config, s: State, s': State, h: History, cause: Gid, bump: bool)
    requires Agrees(cfg, s, h) && Evolves(s, s') && s.totalGrants <= s'.totalGrants
    requires Open(s, cause) && cause.epoch == s.epoch && Done(s', cause)
    requires s'.epoch == s.epoch + 1 && s'.breaker.state == OPEN
    requires s'.breaker.level == if bump then Min(s.breaker.level + 1, |cfg.cooldowns|) else s.breaker.level
    ensures Agrees(cfg, s', h.(trips := h.trips + [Trip(cause, bump)], ok := {},
                               bumps := if bump then h.bumps + 1 else h.bumps))
  {
    DoneStable(s, s', h.applied);
    DoneStable(s, s', h.known);
    forall i | 0 <= i < |h.closers|
      ensures h.closers[i] != cause
    {
      assert Done(s, h.closers[i]);
    }
  }

  lemma AgreesResolve(cfg: Config, s: State, p: Probe, wall: real, h: History)
    requires cfg.Valid() && Inv(cfg, s) && s.breaker.probe == Some(p) && Agrees(cfg, s, h)
    ensures Agrees(cfg, ResolveDeadProbe(cfg, s, p, wall),
                   if p.marker then h.(trips := h.trips + [Trip(p.holder, false)], ok := {}) else h)
  {
    var s' := ResolveDeadProbe(cfg, s, p, wall);
    ResolveKeeps(cfg, s, p, wall);
    assert Done(s', p.holder);
    if p.marker {
      AgreesTrip(cfg, s, s', h, p.holder, false);
    } else {
      AgreesFrame(cfg, s, s', h);
    }
  }

  lemma AgreesProbe(cfg: Config, t: Txn, e: Env, h: History)
    requires cfg.Valid() && Inv(cfg, t.st) && Agrees(cfg, t.st, h)
    ensures Agrees(cfg, ProbePhase(cfg, t, e).st, HistoryOfRefresh(t.st, e, h))
  {
    hide Run, Next, Enabled, Inv, Agrees, Refresh, Poll, Record, PrepareSend, Select;
    match t.st.breaker.probe
    case None =>
    case Some(p) =>
      if HolderGone(p, e) {
        AgreesResolve(cfg, t.st, p, e.wall, h);
      } else {
        AgreesFrame(cfg, t.st, ProbePhase(cfg, t, e).st, h);
      }
  }

  lemma AgreesCooldown(cfg: Config, t: Txn, e: Env, h: History)
    requires Inv(cfg, t.st) && Agrees(cfg, t.st, h)
    ensures Agrees(cfg, CooldownPhase(t, e).st, h)
  {
    CooldownKeeps(cfg, t, e);
    var s' := CooldownPhase(t, e).st;
    DoneStable(t.st, s', h.ok);
    DoneStable(t.st, s', h.applied);
    DoneStable(t.st, s', h.known);
  }

  lemma AgreesPending(cfg: Config, s: State, pending: map<Rid, Demand>, h: History)
    requires Inv(cfg, s) && Agrees(cfg, s, h)
    requires forall r :: r in pending ==> r in s.pending && pending[r] == s.pending[r]
    ensures Inv(cfg, s.(pending := pending)) && Agrees(cfg, s.(pending := pending), h)
  {
    PendingKeeps(cfg, s, pending);
    AgreesFrame(cfg, s, s.(pending := pending), h);
  }

  lemma AgreesClock(cfg: Config, t: Txn, e: Env, h: History)
    requires cfg.Valid() && Inv(cfg, t.st) && Agrees(cfg, t.st, h)
    ensures var t' := ClockRule(cfg, t, e);
            Inv(cfg, t'.st) && Agrees(cfg, t'.st, h) && t'.st.breaker.probe == t.st.breaker.probe
  {
    hide Inv, Agrees, Evolves, Classify, Applied;
    ClockKeeps(cfg, t, e);
    AgreesFrame(cfg, t.st, ClockRule(cfg, t, e).st, h);
  }

  lemma AgreesBeforeProbe(cfg: Config, s: State, e: Env, h: History)
    requires cfg.Valid() && Inv(cfg, s) && Agrees(cfg, s, h)
    ensures var t := Steps(cfg, s, e).pruned;
            Inv(cfg, t.st) && Agrees(cfg, t.st, h) && t.st.breaker.probe == s.breaker.probe
  {
    var t0 := DropLeaked(Txn(s, false), e);
    AgreesPending(cfg, s, t0.st.pending, h);
    var t1 := ClockRule(cfg, t0, e);
    AgreesClock(cfg, t0, e, h);
    var t2 := PrunePending(t1, e);
    AgreesPending(cfg, t1.st, t2.st.pending, h);
  }

  lemma AgreesAfterProbe(cfg: Config, t: Txn, e: Env, h: History)
    requires cfg.Valid() && Inv(cfg, t.st) && Agrees(cfg, t.st, h)
    ensures Agrees(cfg, EvictPhase(cfg, ReconcilePhase(CooldownPhase(t, e), e), e).st, h)
  {
    var c := CooldownPhase(t, e);
    AgreesCooldown(cfg, t, e, h);
    CooldownKeeps(cfg, t, e);
    ReconcileKeeps(cfg, c, e);
    AgreesFrame(cfg, c.st, ReconcilePhase(c, e).st, h);
    EvictKeeps(cfg, ReconcilePhase(c, e), e);
    AgreesFrame(cfg, ReconcilePhase(c, e).st, EvictPhase(cfg, ReconcilePhase(c, e), e).st, h);
  }

  /** A refresh and the history it writes stay in agreement. */
  lemma AgreesRefresh(cfg: Config, s: State, e: Env, h: History)
    requires cfg.Valid() && Inv(cfg, s) && Agrees(cfg, s, h)
    ensures Agrees(cfg, Refresh(cfg, s, e).st, HistoryOfRefresh(s, e, h))
  {
    var k := Steps(cfg, s, e);
    AgreesBeforeProbe(cfg, s, e, h);
    AgreesProbe(cfg, k.pruned, e, h);
    ProbeKeeps(cfg, k.pruned, e);
    AgreesAfterProbe(cfg, k.probed, e, HistoryOfRefresh(s, e, h));
  }

  lemma AgreesSuccess(cfg: Config, s: State, s': State, h: History, g: Gid)
    requires Agrees(cfg, s, h) && Evolves(s, s') && s.totalGrants <= s'.totalGrants
    requires Open(s, g) && g.epoch == s.epoch && s.breaker.state != OPEN && Done(s', g)
    requires s'.epoch == s.epoch && s'.breaker.level == s.breaker.level
    requires s'.breaker.state == s.breaker.state && s'.breaker.streak == s.breaker.streak + 1
    ensures Agrees(cfg, s', h.(ok := h.ok + {g}))
  {
    DoneStable(s, s', h.ok);
    DoneStable(s, s', h.applied);
    DoneStable(s, s', h.known);
    assert g !in h.ok;
  }

  lemma AgreesClosing(cfg: Config, s: State, s': State, h: History, g: Gid)
    requires cfg.Valid() && Agrees(cfg, s, h) && Evolves(s, s') && s.totalGrants <= s'.totalGrants
    requires Open(s, g) && g.epoch == s.epoch && Done(s', g)
    requires s'.epoch == s.epoch && s'.breaker.level == 0 && s'.breaker.state == CLOSED
    ensures Agrees(cfg, s', h.(ok := h.ok + {g}, closers := h.closers + [g], bumps := 0))
  {
    DoneStable(s, s', h.ok);
    DoneStable(s, s', h.applied);
    DoneStable(s, s', h.known);
    forall i | 0 <= i < |h.closers| ensures h.closers[i] != g { assert Done(s, h.closers[i]); }
    forall i | 0 <= i < |h.trips| ensures h.trips[i].cause != g { assert h.trips[i].cause.epoch == i + 1; }
  }

  /** Recording an outcome and the history it writes stay in agreement. */
  lemma AgreesRecord(cfg: Config, t: Txn, g: Gid, o: Outcome, wall: real, h: History)
    requires cfg.Valid() && Inv(cfg, t.st) && Agrees(cfg, t.st, h)
    ensures Agrees(cfg, Record(cfg, t, g, o, wall).0.st, HistoryOfRecord(cfg, t.st, g, o, h))
  {
    hide Agrees, Record, Evolves, Accounts, IssuedIds, BreakerShape, DemandsCapped;
    var s := t.st;
    var s' := Record(cfg, t, g, o, wall).0.st;
    RecordKeeps(cfg, t, g, o, wall);
    if Open(s, g) {
      assert g.epoch == s.epoch ==> s.breaker.state != OPEN;
      OpenIsIssued(cfg, s, s', g);
      RecordFields(cfg, t, g, o, wall);
      hide Inv, SlotDiscipline, Done;
      if g.epoch == s.epoch && o == RATE_LIMIT {
        AgreesTrip(cfg, s, s', h, g, true);
      } else if g.epoch == s.epoch && o == OK {
        if s.breaker.state == RECOVERY && s.breaker.streak + 1 >= cfg.recoveryTarget {
          AgreesClosing(cfg, s, s', h, g);
        } else {
          AgreesSuccess(cfg, s, s', h, g);
        }
      } else {
        AgreesFrame(cfg, s, s', h);
      }
    } else {
      assert Record(cfg, t, g, o, wall).0.st == s by { NotOpenKeeps(cfg, t, g, o, wall); }
    }
  }

  lemma OpenIsIssued(cfg: Config, s: State, s': State, g: Gid)
    requires Inv(cfg, s) && Open(s, g) && Terminal(s', g) && Evolves(s, s')
    ensures Done(s', g)
  {
  }

  lemma NotOpenKeeps(cfg: Config, t: Txn, g: Gid, o: Outcome, wall: real)
    requires cfg.Valid() && !Open(t.st, g)
    ensures Record(cfg, t, g, o, wall).0.st == t.st
  {
  }

  /** What the recording of an open grant's outcome does to the fields the history follows. */
  lemma RecordFields(cfg: Config, t: Txn, g: Gid, o: Outcome, wall: real)
    requires cfg.Valid() && Open(t.st, g)
    ensures var s, s' := t.st, Record(cfg, t, g, o, wall).0.st;
            var b, b' := s.breaker, s'.breaker;
            && s'.totalGrants == s.totalGrants
            && (if g.epoch == s.epoch && o == RATE_LIMIT then
                  s'.epoch == s.epoch + 1 && b'.state == OPEN && b'.level == Min(b.level + 1, |cfg.cooldowns|)
                else if g.epoch == s.epoch && o == OK then
                  && s'.epoch == s.epoch
                  && (if b.state == RECOVERY && b.streak + 1 >= cfg.recoveryTarget
                      then b'.level == 0 && b'.state == CLOSED
                      else b'.level == b.level && b'.state == b.state && b'.streak == b.streak + 1)
                else
                  s'.epoch == s.epoch && b'.level == b.level && b'.state == b.state && b'.streak == b.streak)
  {
  }

  /** Registration, dropping, marking and issuing leave epoch, level, state and streak alone. */
  lemma AgreesPoll(cfg: Config, s: State, p: Prio, r: Rid, anchor: Option<real>, e: Env, budget: real, h: History)
    requires cfg.Valid() && Inv(cfg, s) && Agrees(cfg, s, h)
    ensures Agrees(cfg, Poll(cfg, s, p, r, anchor, e, budget).t.st, HistoryOfRefresh(s, e, h))
  {
    var t := Refresh(cfg, s, e);
    var q := Poll(cfg, s, p, r, anchor, e, budget);
    RefreshKeeps(cfg, s, e);
    AgreesRefresh(cfg, s, e, h);
    PollAfterRefresh(cfg, s, p, r, anchor, e, budget);
    AgreesFrame(cfg, t.st, q.t.st, HistoryOfRefresh(s, e, h));
  }

  /** What a poll changes after its refresh: the queue, and at most one new grant. */
  lemma PollAfterRefresh(cfg: Config, s: State, p: Prio, r: Rid, anchor: Option<real>, e: Env, budget: real)
    requires cfg.Valid() && Inv(cfg, s)
    ensures var t := Refresh(cfg, s, e).st;
            var q := Poll(cfg, s, p, r, anchor, e, budget);
            && Evolves(t, q.t.st)
            && q.t.st.epoch == t.epoch && q.t.st.breaker == t.breaker.(probe := q.t.st.breaker.probe)
            && q.t.st.totalGrants == t.totalGrants + (if q.result.Granted? then 1 else 0)
            && (!q.result.Granted? ==> q.t.st == t.(pending := q.t.st.pending))
            && (q.result.Granted? ==>
                  && t.breaker.state != OPEN && q.t.dirty
                  && q.result.gid == NextGid(t) && q.result.gid in q.t.st.grants
                  && q.result.probe == (t.breaker.state == RECOVERY)
                  && (q.result.probe ==>
                        && HoldsSlot(q.t.st, q.result.gid)
                        && q.t.st.breaker.probe.value.pid == e.pid && q.t.st.breaker.probe.value.boot == e.boot))
            && (!(q.result.Granted? && q.result.probe) ==> q.t.st.breaker == t.breaker)
  {
    hide Run, Next, Enabled, Inv, Agrees, Refresh, Record, PrepareSend, Select;
    RefreshKeeps(cfg, s, e);
    var t := Refresh(cfg, s, e);
    RegisterKeeps(cfg, t, p, r, anchor, e);
    DropKeeps(cfg, t, r);
    match Register(cfg, t, p, r, anchor, e)
    case Full =>
    case Stale =>
    case Registered(t', a) =>
      SelectFrame(cfg, t', p, r, a, e, budget);
      EvolvesTransitive(t.st, t'.st, Select(cfg, t', p, r, a, e, budget).t.st);
  }

  lemma SelectFrame(cfg: Config, t: Txn, p: Prio, r: Rid, anchor: real, e: Env, budget: real)
    requires cfg.Valid() && Inv(cfg, t.st)
    ensures var q := Select(cfg, t, p, r, anchor, e, budget);
            && Evolves(t.st, q.t.st)
            && (if q.result.Granted? then
                  && t.st.breaker.state != OPEN && q.t == Txn(Issue(cfg, t.st, p, r, e), true)
                  && q.result.gid == NextGid(t.st) && q.result.probe == (t.st.breaker.state == RECOVERY)
                  && q.anchor == Some(anchor)
                else q.t.st == t.st.(pending := q.t.st.pending))
  {
    hide Run, Next, Enabled, Inv, Agrees, Refresh, Poll, Record, PrepareSend, Evolves;
    SelectKeeps(cfg, t, p, r, anchor, e, budget);
    if t.st.breaker.state == OPEN {
      DropKeeps(cfg, t, r);
    }
  }

  lemma AgreesPrepare(cfg: Config, t: Txn, g: Gid, h: History)
    requires Inv(cfg, t.st) && Agrees(cfg, t.st, h)
    ensures Agrees(cfg, PrepareSend(t, g).0.st, h)
  {
    PrepareKeeps(cfg, t, g);
    AgreesFrame(cfg, t.st, PrepareSend(t, g).0.st, h);
  }
}
