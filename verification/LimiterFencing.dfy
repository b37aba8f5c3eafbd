/**
 * Fencing over whole runs: once an epoch has ended, nothing done with its
 * grants moves the breaker again, and no probe of it is still open.
 */
module LimiterFencing {
  import opened Basics
  import opened LimiterConfig
  import opened LimiterState
  import opened LimiterSpec
  import opened LimiterInvariants
  import opened LimiterProtocol
  import opened LimiterHistory
  import opened LimiterWorld
  import opened LimiterSafety

  // ------------------------------------------------------------------- epochs

  /** An operation after its refresh keeps the epoch, or a rate limit of the current epoch raises it by one. */
  lemma TxnEpoch(cfg: Config, w: World, a: Action)
    requires cfg.Valid() && Inv(cfg, w.st) && Enabled(w, a) && a.Writes()
    ensures w.st.epoch <= TxnOf(cfg, w, a).st.epoch <= w.st.epoch + 1
  {
    hide Refresh, Inv, Poll, Record, PrepareSend, Drop;
    RefreshEpoch(cfg, w.st, a.e);
    var t := Refresh(cfg, w.st, a.e);
    match a
    case PollOnce(r, e, budget, _) =>
      PollAfterRefresh(cfg, w.st, w.waiters[r].prio, r, w.waiters[r].anchor, e, budget);
    case GiveUp(r, _, _) => DropEpoch(t, r);
    case DropDemand(r, _, _) => DropEpoch(t, r);
    case Prepare(g, _, _) => PrepareBreaker(t, g);
    case Report(g, o, e, _) => OneTripPerReport(cfg, w.st, g, o, e);
    case Maintain(_, _) =>
  }

  lemma DropEpoch(t: Txn, r: Rid)
    ensures Drop(t, r).st.epoch == t.st.epoch
  {
  }

  /** No step of any run raises the epoch by more than one, and none lowers it. */
  lemma OneTripPerStep(cfg: Config, ws: seq<World>, acts: seq<Action>, n: nat)
    requires Run(cfg, ws, acts) && n < |acts|
    ensures ws[n].st.epoch <= ws[n + 1].st.epoch <= ws[n].st.epoch + 1
  {
    hide Next, Enabled, WorldOk, Inv, Agrees, Refresh, Poll, Record, PrepareSend, Select, TxnOf, Evolves;
    var w, a := ws[n], acts[n];
    RunInvariant(cfg, ws, acts, n);
    assert ws[n + 1] == Next(cfg, w, a);
    hide Run;
    DocumentOk(cfg, w);
    NextDocument(cfg, w, a);
    if a.Writes() {
      TxnEpoch(cfg, w, a);
    }
  }

  /** What a result or a send check leaves of breaker and epoch: what it found, or what its opening refresh made of it. */
  predicate OnlyRefreshed(cfg: Config, s: State, e: Env, s': State)
    requires cfg.Valid()
  {
    || (s'.breaker == s.breaker && s'.epoch == s.epoch)
    || (s'.breaker == Refresh(cfg, s, e).st.breaker && s'.epoch == Refresh(cfg, s, e).st.epoch)
  }

  lemma StaleTxn(cfg: Config, w: World, a: Action)
    requires cfg.Valid() && Inv(cfg, w.st) && Enabled(w, a) && (a.Report? || a.Prepare?) && a.g.epoch < w.st.epoch
    ensures var t, t' := Refresh(cfg, w.st, a.e), TxnOf(cfg, w, a);
            && t'.st.breaker == t.st.breaker && t'.st.epoch == t.st.epoch
            && (a.Prepare? ==> !PrepareSend(t, a.g).1)
  {
    hide Refresh, Inv, Record, PrepareSend;
    RefreshKeeps(cfg, w.st, a.e);
    RefreshEpoch(cfg, w.st, a.e);
    StaleGrantsAreFenced(cfg, Refresh(cfg, w.st, a.e), a.g, if a.Report? then a.o else OK, a.e.wall);
    PrepareBreaker(Refresh(cfg, w.st, a.e), a.g);
  }

  /**
   * Once the epoch has moved on, every later result or send check of an older
   * grant leaves breaker and epoch to its opening refresh, and no send is
   * allowed, whatever happened in between.
   */
  lemma FencedForever(cfg: Config, ws: seq<World>, acts: seq<Action>, i: nat, j: nat)
    requires Run(cfg, ws, acts) && i <= j < |acts|
    requires (acts[j].Report? || acts[j].Prepare?) && acts[j].g.epoch < ws[i].st.epoch
    ensures OnlyRefreshed(cfg, ws[j].st, acts[j].e, ws[j + 1].st)
    ensures acts[j].Prepare? ==> !PrepareSend(Refresh(cfg, ws[j].st, acts[j].e), acts[j].g).1
  {
    hide Next, Enabled, WorldOk, Inv, Agrees, Refresh, Poll, Record, PrepareSend, Select, TxnOf;
    var w, a := ws[j], acts[j];
    RunInvariant(cfg, ws, acts, j);
    RunEvolves(cfg, ws, acts, i, j);
    assert ws[j + 1] == Next(cfg, w, a);
    hide Run;
    DocumentOk(cfg, w);
    NextDocument(cfg, w, a);
    StaleTxn(cfg, w, a);
  }

  // -------------------------------------------------------------------- probes

  /** Every open probe record, of whatever epoch, belongs to the slot's holder. */
  ghost predicate ProbesHeld(s: State) {
    forall g :: Open(s, g) && s.grants[g].probe ==> HoldsSlot(s, g)
  }

  lemma HeadKeepsProbes(cfg: Config, s: State, e: Env)
    requires cfg.Valid() && ProbesHeld(s)
    ensures ProbesHeld(Steps(cfg, s, e).pruned.st)
  {
    HeadFrames(cfg, s, e);
    hide Steps;
  }

  lemma ProbePhaseKeepsProbes(cfg: Config, t: Txn, e: Env)
    requires cfg.Valid() && ProbesHeld(t.st)
    ensures ProbesHeld(ProbePhase(cfg, t, e).st)
  {
  }

  lemma TailKeepsProbes(cfg: Config, t: Txn, e: Env)
    requires ProbesHeld(t.st) && (t.st.breaker.state == OPEN ==> t.st.breaker.probe == None)
    ensures ProbesHeld(EvictPhase(cfg, ReconcilePhase(CooldownPhase(t, e), e), e).st)
  {
    var c := CooldownPhase(t, e);
    assert ProbesHeld(c.st);
    hide CooldownPhase;
    assert ProbesHeld(ReconcilePhase(c, e).st);
  }

  lemma RefreshKeepsProbes(cfg: Config, s: State, e: Env)
    requires cfg.Valid() && Inv(cfg, s) && ProbesHeld(s)
    ensures ProbesHeld(Refresh(cfg, s, e).st)
  {
    HeadKeepsProbes(cfg, s, e);
    HeadFrames(cfg, s, e);
    var t := Steps(cfg, s, e).pruned;
    assert s.breaker.probe.Some? ==> s.breaker.state == RECOVERY;
    ProbePhaseKeepsProbes(cfg, t, e);
    OpenIsEmpty(cfg, t, e);
    TailKeepsProbes(cfg, ProbePhase(cfg, t, e), e);
    hide Inv, ProbesHeld, ProbePhase, CooldownPhase, ReconcilePhase, EvictPhase;
  }

  lemma OpenIsEmpty(cfg: Config, t: Txn, e: Env)
    requires cfg.Valid() && (t.st.breaker.probe.Some? ==> t.st.breaker.state == RECOVERY)
    ensures var b := ProbePhase(cfg, t, e).st.breaker; b.state == OPEN ==> b.probe == None
  {
  }

  lemma PrepareKeepsProbes(t: Txn, g: Gid)
    requires ProbesHeld(t.st)
    ensures ProbesHeld(PrepareSend(t, g).0.st)
  {
  }

  lemma RecordKeepsProbes(cfg: Config, t: Txn, g: Gid, o: Outcome, wall: real)
    requires cfg.Valid() && Inv(cfg, t.st) && ProbesHeld(t.st)
    ensures ProbesHeld(Record(cfg, t, g, o, wall).0.st)
  {
    hide ApplyOutcome, ApplyOpen, IssuedIds, Accounts, DemandsCapped;
    var s := t.st;
    if Open(s, g) {
      assert s.breaker.probe.Some? ==> s.breaker.state == RECOVERY;
      assert g.epoch == s.epoch && s.breaker.probe.Some? ==> HoldsSlot(s, g);
      hide Inv, SlotDiscipline, BreakerShape;
      var c := s.(grants := CloseGrant(s.grants, g, o));
      assert forall h :: Open(c, h) ==> h != g && Open(s, h) && c.grants[h] == s.grants[h];
      hide CloseGrant;
      OutcomeProbe(cfg, c, g, o, wall);
    }
  }

  /** An outcome leaves the records alone, and the slot too unless g held it or a rate limit trips. */
  lemma OutcomeProbe(cfg: Config, s: State, g: Gid, o: Outcome, wall: real)
    requires cfg.Valid()
    ensures var s' := ApplyOutcome(cfg, s, g, o, wall);
            && s'.grants == s.grants
            && (s'.breaker.probe == s.breaker.probe || HoldsSlot(s, g) || (o == RATE_LIMIT && g.epoch == s.epoch))
  {
  }

  lemma PollKeepsProbes(cfg: Config, s: State, p: Prio, r: Rid, anchor: Option<real>, e: Env, budget: real)
    requires cfg.Valid() && Inv(cfg, s) && ProbesHeld(s)
    ensures ProbesHeld(Poll(cfg, s, p, r, anchor, e, budget).t.st)
  {
    hide Refresh, Inv, ProbesHeld, Select;
    RefreshKeeps(cfg, s, e);
    RefreshKeepsProbes(cfg, s, e);
    var t := Refresh(cfg, s, e);
    RegisterKeeps(cfg, t, p, r, anchor, e);
    match Register(cfg, t, p, r, anchor, e)
    case Full =>
    case Stale => QueueKeepsProbes(t.st, Drop(t, r).st);
    case Registered(t', a) =>
      QueueKeepsProbes(t.st, t'.st);
      SelectFrame(cfg, t', p, r, a, e, budget);
      var q := Select(cfg, t', p, r, a, e, budget);
      if q.result.Granted? {
        GrantedFreely(cfg, t', p, r, a, e, budget);
        IssueKeepsProbes(cfg, t'.st, p, r, e);
      } else {
        QueueKeepsProbes(t'.st, q.t.st);
      }
  }

  lemma QueueKeepsProbes(s: State, s': State)
    requires ProbesHeld(s) && s' == s.(pending := s'.pending)
    ensures ProbesHeld(s')
  {
  }

  lemma GrantedFreely(cfg: Config, t: Txn, p: Prio, r: Rid, anchor: real, e: Env, budget: real)
    requires cfg.Valid() && Select(cfg, t, p, r, anchor, e, budget).result.Granted?
    ensures t.st.breaker.state == RECOVERY ==> t.st.breaker.probe == None
  {
    hide Winner, Issue;
  }

  lemma IssueKeepsProbes(cfg: Config, s: State, p: Prio, r: Rid, e: Env)
    requires Inv(cfg, s) && ProbesHeld(s) && (s.breaker.state == RECOVERY ==> s.breaker.probe == None)
    ensures ProbesHeld(Issue(cfg, s, p, r, e))
  {
    InvIds(cfg, s);
    hide Inv;
  }

  lemma TxnKeepsProbes(cfg: Config, w: World, a: Action)
    requires cfg.Valid() && Inv(cfg, w.st) && Enabled(w, a) && a.Writes() && ProbesHeld(w.st)
    ensures ProbesHeld(TxnOf(cfg, w, a).st)
  {
    hide Refresh, Inv, Poll, Record, PrepareSend, ProbesHeld;
    RefreshKeeps(cfg, w.st, a.e);
    RefreshKeepsProbes(cfg, w.st, a.e);
    var t := Refresh(cfg, w.st, a.e);
    match a
    case PollOnce(r, e, budget, _) =>
      PollKeepsProbes(cfg, w.st, w.waiters[r].prio, r, w.waiters[r].anchor, e, budget);
    case GiveUp(r, _, _) => QueueKeepsProbes(t.st, Drop(t, r).st);
    case DropDemand(r, _, _) => QueueKeepsProbes(t.st, Drop(t, r).st);
    case Prepare(g, _, _) => PrepareKeepsProbes(t, g);
    case Report(g, o, e, _) => RecordKeepsProbes(cfg, t, g, o, e.wall);
    case Maintain(_, _) =>
  }

  /** In every document of every run each open probe record, of any epoch, is the slot's holder. */
  lemma {:induction false} OpenProbesHoldTheSlot(cfg: Config, ws: seq<World>, acts: seq<Action>, n: nat)
    requires Run(cfg, ws, acts) && n < |ws|
    ensures forall g :: Open(ws[n].st, g) && ws[n].st.grants[g].probe ==> HoldsSlot(ws[n].st, g)
    decreases n
  {
    hide Next, Enabled, WorldOk, Inv, Agrees, Refresh, Poll, Record, PrepareSend, Select, TxnOf, Evolves;
    if n > 0 {
      var w, a := ws[n - 1], acts[n - 1];
      OpenProbesHoldTheSlot(cfg, ws, acts, n - 1);
      RunInvariant(cfg, ws, acts, n - 1);
      assert ws[n - 1 + 1] == Next(cfg, w, a);
      hide Run;
      DocumentOk(cfg, w);
      NextDocument(cfg, w, a);
      if a.Writes() {
        TxnKeepsProbes(cfg, w, a);
      }
    }
  }
}
