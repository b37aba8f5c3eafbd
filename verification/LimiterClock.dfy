/**
 * Clocks: an open breaker's cooldown is never cut short by the protocol, and
 * skipping the write of an idle poll loses nothing, because the credit of
 * several intervals is the credit of their union.
 */
module LimiterClock {
  import opened Basics
  import opened LimiterConfig
  import opened LimiterState
  import opened LimiterSpec
  import opened LimiterInvariants
  import opened LimiterProtocol
  import opened LimiterHistory
  import opened LimiterWorld
  import opened LimiterSafety
  import opened LimiterRate

  // ------------------------------------------------------------------ cooldown

  /** From s to s' the open breaker stayed open: same epoch, no grant, and no earlier end of the cooldown. */
  predicate StaysOpen(s: State, s': State) {
    && s'.breaker.state == OPEN && s'.epoch == s.epoch && s'.totalGrants == s.totalGrants
    && s.breaker.cooldownUntil <= s'.breaker.cooldownUntil
  }

  lemma HeadKeepsCooldown(cfg: Config, s: State, e: Env)
    requires cfg.Valid() && s.breaker.state == OPEN
    ensures var s' := Steps(cfg, s, e).pruned.st;
            s'.breaker == s.breaker.(cooldownUntil := s'.breaker.cooldownUntil)
            && s.breaker.cooldownUntil <= s'.breaker.cooldownUntil
  {
  }

  lemma RefreshOpen(cfg: Config, s: State, e: Env)
    requires cfg.Valid() && s.breaker.state == OPEN && s.breaker.probe == None
    ensures var s' := Refresh(cfg, s, e).st;
            && s'.breaker.probe == None && s'.epoch == s.epoch
            && (if s'.breaker.state == OPEN then StaysOpen(s, s')
                else s'.breaker.state == RECOVERY && s.breaker.cooldownUntil <= e.wall)
  {
    HeadKeepsCooldown(cfg, s, e);
    HeadFrames(cfg, s, e);
    var t := Steps(cfg, s, e).pruned;
    hide PrunePending, ClockRule, DropLeaked;
    assert ProbePhase(cfg, t, e) == t;
    TailFrames(cfg, t, e);
    assert EvictPhase(cfg, ReconcilePhase(CooldownPhase(t, e), e), e).st.breaker == CooldownPhase(t, e).st.breaker;
    assert EvictPhase(cfg, ReconcilePhase(CooldownPhase(t, e), e), e).st.epoch == t.st.epoch;
  }

  /** The current epoch has issued nothing that is still registered. */
  predicate FreshEpoch(s: State) {
    s.breaker.probe == None && forall g :: g in s.grants ==> g.epoch != s.epoch
  }

  /** In a fresh epoch no result can trip or close the breaker. */
  lemma OperationsInFreshEpoch(cfg: Config, t: Txn, r: Rid, g: Gid, o: Outcome, wall: real)
    requires cfg.Valid() && FreshEpoch(t.st)
    ensures var d := Drop(t, r).st; d.breaker == t.st.breaker && d.epoch == t.st.epoch && d.totalGrants == t.st.totalGrants
    ensures var d := PrepareSend(t, g).0.st;
            d.breaker == t.st.breaker && d.epoch == t.st.epoch && d.totalGrants == t.st.totalGrants
    ensures var d := Record(cfg, t, g, o, wall).0.st;
            d.breaker == t.st.breaker && d.epoch == t.st.epoch && d.totalGrants == t.st.totalGrants
  {
  }

  lemma OpenEpochIsFresh(cfg: Config, s: State, e: Env)
    requires cfg.Valid() && Inv(cfg, s) && s.breaker.state == OPEN
    ensures FreshEpoch(s) && FreshEpoch(Refresh(cfg, s, e).st)
  {
    OpenHasNoSlot(cfg, s);
    RefreshOpen(cfg, s, e);
    RefreshIds(cfg, s, e);
    hide Refresh, Inv;
  }

  lemma OpenHasNoSlot(cfg: Config, s: State)
    requires Inv(cfg, s) && s.breaker.state == OPEN
    ensures s.breaker.probe == None && SlotDiscipline(s)
  {
  }

  /** One transaction on an open breaker: it stays open, or its cooldown was over and recovery began. */
  lemma TxnWhileOpen(cfg: Config, w: World, a: Action)
    requires cfg.Valid() && Inv(cfg, w.st) && Enabled(w, a) && a.Writes() && w.st.breaker.state == OPEN
    ensures var s' := TxnOf(cfg, w, a).st;
            StaysOpen(w.st, s') || (s'.breaker.state == RECOVERY && w.st.breaker.cooldownUntil <= a.e.wall)
  {
    hide Refresh, Poll, Record, PrepareSend, Drop, Inv, StaysOpen, FreshEpoch;
    var t := Refresh(cfg, w.st, a.e);
    OpenHasNoSlot(cfg, w.st);
    OpenEpochIsFresh(cfg, w.st, a.e);
    RefreshOpen(cfg, w.st, a.e);
    match a
    case PollOnce(r, e, budget, _) =>
      PollAfterRefresh(cfg, w.st, w.waiters[r].prio, r, w.waiters[r].anchor, e, budget);
      SameBreaker(w.st, t.st, TxnOf(cfg, w, a).st);
    case GiveUp(r, e, _) =>
      OperationsInFreshEpoch(cfg, t, r, Gid(0, 0), OK, e.wall);
      SameBreaker(w.st, t.st, TxnOf(cfg, w, a).st);
    case DropDemand(r, e, _) =>
      OperationsInFreshEpoch(cfg, t, r, Gid(0, 0), OK, e.wall);
      SameBreaker(w.st, t.st, TxnOf(cfg, w, a).st);
    case Prepare(g, e, _) =>
      OperationsInFreshEpoch(cfg, t, 0, g, OK, e.wall);
      SameBreaker(w.st, t.st, TxnOf(cfg, w, a).st);
    case Report(g, o, e, _) =>
      OperationsInFreshEpoch(cfg, t, 0, g, o, e.wall);
      SameBreaker(w.st, t.st, TxnOf(cfg, w, a).st);
    case Maintain(_, _) =>
  }

  lemma SameBreaker(s: State, r: State, t: State)
    ensures StaysOpen(s, r) && t.breaker == r.breaker && t.epoch == r.epoch && t.totalGrants == r.totalGrants ==>
              StaysOpen(s, t)
  {
  }

  /**
   * OPEN is left only by a transaction whose wall has reached the stored end
   * of the cooldown; until then nothing is granted and the end never moves
   * earlier.
   */
  lemma OpenIsLeftOnlyAfterCooldown(cfg: Config, w: World, a: Action)
    requires cfg.Valid() && WorldOk(cfg, w) && Enabled(w, a) && w.st.breaker.state == OPEN
    ensures var s' := Next(cfg, w, a).st;
            || StaysOpen(w.st, s')
            || (a.Writes() && s'.breaker.state == RECOVERY && w.st.breaker.cooldownUntil <= a.e.wall)
    ensures Returned(cfg, w, a).Some? ==> w.st.breaker.cooldownUntil <= a.e.wall
  {
    hide Next, WorldOk, Inv, Refresh, Poll, Record, PrepareSend;
    DocumentOk(cfg, w);
    NextDocument(cfg, w, a);
    if a.Writes() {
      TxnWhileOpen(cfg, w, a);
      if a.PollOnce? {
        OpenHasNoSlot(cfg, w.st);
        RefreshOpen(cfg, w.st, a.e);
        PollAfterRefresh(cfg, w.st, w.waiters[a.r].prio, a.r, w.waiters[a.r].anchor, a.e, a.budget);
      }
    }
    hide TxnOf;
  }

  /** While a run stays in OPEN, it grants nothing and the cooldown's end never moves earlier. */
  lemma {:induction false} CooldownNeverShrinks(cfg: Config, ws: seq<World>, acts: seq<Action>, i: nat, j: nat)
    requires Run(cfg, ws, acts) && i <= j < |ws|
    requires forall k :: i <= k <= j ==> ws[k].st.breaker.state == OPEN
    ensures StaysOpen(ws[i].st, ws[j].st)
    decreases j - i
  {
    hide Next, Enabled, WorldOk, Inv, Agrees, Refresh, Poll, Record, PrepareSend, Select, TxnOf, Evolves;
    if i < j {
      CooldownNeverShrinks(cfg, ws, acts, i, j - 1);
      RunInvariant(cfg, ws, acts, j - 1);
      assert ws[j - 1 + 1] == Next(cfg, ws[j - 1], acts[j - 1]);
      OpenIsLeftOnlyAfterCooldown(cfg, ws[j - 1], acts[j - 1]);
    }
  }

  /**
   * A wall step above the cap, on a stored monotonic baseline and without a
   * reboot, leaves an open breaker with at least its full cooldown to go; it
   * is left at once only when that cooldown is zero.
   */
  lemma ForwardStepLeavesFullCooldown(cfg: Config, s: State, e: Env)
    requires cfg.Valid() && s.breaker.state == OPEN && s.breaker.probe == None
    requires s.boot == e.boot && s.lastMono.Some?
    requires (e.wall - s.lastWall) - (e.mono - s.lastMono.value) > cfg.clockStepCap
    ensures var b := Refresh(cfg, s, e).st.breaker;
            var rung := cfg.cooldowns[Min(Max(s.breaker.level, 1), |cfg.cooldowns|) - 1];
            && b.cooldownUntil - e.wall >= rung
            && (b.state == OPEN || (b.state == RECOVERY && b.cooldownUntil == e.wall))
            && (rung > 0.0 ==> b.state == OPEN)
    ensures Refresh(cfg, s, e).st.tokens == s.tokens
  {
    var t := ClockRule(cfg, DropLeaked(Txn(s, false), e), e);
    assert Classify(cfg, DropLeaked(Txn(s, false), e).st, e) == Forward;
    var rung := cfg.cooldowns[Min(Max(s.breaker.level, 1), |cfg.cooldowns|) - 1];
    assert t.st.breaker.state == OPEN && t.st.breaker.cooldownUntil >= e.wall + rung;
    hide ClockRule, DropLeaked;
    var t2 := ProbePhase(cfg, PrunePending(t, e), e);
    assert t2.st.breaker == t.st.breaker;
    var t3 := CooldownPhase(t2, e);
    assert t3.st.breaker.cooldownUntil == t.st.breaker.cooldownUntil && t3.st.tokens == s.tokens;
  }

  // ---------------------------------------------------------------- lazy credit

  /** Since s was stored both clocks moved together, without a reboot: an idle gap of any length. */
  predicate InStep(s: State, e: Env) {
    && s.boot == e.boot && s.lastMono.Some?
    && s.lastWall <= e.wall && e.wall - s.lastWall == e.mono - s.lastMono.value
  }

  /** An idle gap of any length never moves an open cooldown, and ends it exactly when its end has come. */
  lemma IdleGapKeepsCooldown(cfg: Config, s: State, e: Env)
    requires cfg.Valid() && cfg.clockStepCap >= 0.0 && s.breaker.probe == None && InStep(s, e)
    ensures var b := Refresh(cfg, s, e).st.breaker;
            b == if s.breaker.state == OPEN && s.breaker.cooldownUntil <= e.wall
                 then s.breaker.(state := RECOVERY, streak := 0)
                 else s.breaker
  {
    var t := ClockRule(cfg, DropLeaked(Txn(s, false), e), e);
    assert t.st.breaker == s.breaker;
    hide ClockRule, DropLeaked;
    var t2 := ProbePhase(cfg, PrunePending(t, e), e);
    assert t2.st.breaker == s.breaker;
    assert EvictPhase(cfg, ReconcilePhase(CooldownPhase(t2, e), e), e).st.breaker == CooldownPhase(t2, e).st.breaker;
  }

  /** Idle time counts as ordinary time exactly when the step cap is not negative, which construction does not check. */
  lemma IdleIsNormalIffCapNonNegative(cfg: Config, s: State, e: Env)
    requires InStep(s, e)
    ensures Classify(cfg, s, e) == Normal <==> cfg.clockStepCap >= 0.0
  {
  }

  lemma ClockInStep(cfg: Config, t: Txn, e: Env)
    requires cfg.Valid() && cfg.clockStepCap >= 0.0 && InStep(t.st, e)
    ensures ClockRule(cfg, t, e) == Txn(CreditElapsed(cfg, t.st, e), t.dirty)
  {
  }

  /** The credit of two adjoining intervals is the credit of the whole: the ceiling commutes. */
  lemma AppliedAdds(cfg: Config, tokens: real, a: real, b: real)
    requires cfg.Valid() && tokens <= cfg.burst && a >= 0.0 && b >= 0.0
    ensures var first := Applied(cfg, tokens, a);
            first + Applied(cfg, tokens + first, b) == Applied(cfg, tokens, a + b)
  {
    assert cfg.gRps * a + cfg.gRps * b == cfg.gRps * (a + b);
    assert cfg.gRps * a >= 0.0 && cfg.gRps * b >= 0.0;
  }

  lemma CreditTwice(cfg: Config, s: State, e: Env, e': Env)
    requires cfg.Valid() && s.tokens <= cfg.burst && InStep(s, e) && InStep(s, e') && e.wall <= e'.wall
    ensures CreditElapsed(cfg, CreditElapsed(cfg, s, e), e') == CreditElapsed(cfg, s, e')
    ensures InStep(CreditElapsed(cfg, s, e), e')
  {
    if e.wall > s.lastWall {
      if e'.wall > e.wall {
        AppliedAdds(cfg, s.tokens, e.wall - s.lastWall, e'.wall - e.wall);
      }
    }
  }

  lemma CreditIsFlow(cfg: Config, s: State, e: Env)
    requires cfg.Valid() && s.tokens <= cfg.burst && InStep(s, e)
    ensures var s' := CreditElapsed(cfg, s, e);
            && s'.tokens == RMin(cfg.burst, s.tokens + Flow(cfg, e.wall - s.lastWall))
            && s'.refillTotal - s.refillTotal == s'.tokens - s.tokens
            && s'.lastWall == e.wall && s'.lastMono == Some(e.mono) && s'.boot == s.boot
  {
    var delta := e.wall - s.lastWall;
    AppliedIsFlow(cfg, s.tokens, delta);
    hide Applied, Flow;
  }

  lemma AppliedIsFlow(cfg: Config, tokens: real, delta: real)
    requires tokens <= cfg.burst
    ensures tokens + Applied(cfg, tokens, delta) == RMin(cfg.burst, tokens + Flow(cfg, delta))
    ensures Flow(cfg, 0.0) == 0.0
  {
    var f := Flow(cfg, delta);
    assert Applied(cfg, tokens, delta) == RMin(f, RMax(0.0, cfg.burst - tokens));
    hide Flow;
  }

  /** While the clocks agree a refresh fills the bucket at the sustained rate up to the burst, whatever else it does. */
  lemma RefillIsExact(cfg: Config, s: State, e: Env)
    requires cfg.Valid() && cfg.clockStepCap >= 0.0 && s.tokens <= cfg.burst && InStep(s, e)
    ensures var s' := Refresh(cfg, s, e).st;
            && s'.tokens == RMin(cfg.burst, s.tokens + Flow(cfg, e.wall - s.lastWall))
            && s'.refillTotal - s.refillTotal == s'.tokens - s.tokens
            && s'.lastWall == e.wall && s'.lastMono == Some(e.mono) && s'.boot == s.boot
  {
    hide Flow, CreditElapsed, ClockRule, ProbePhase, CooldownPhase, ReconcilePhase, EvictPhase, PrunePending;
    var t := DropLeaked(Txn(s, false), e);
    ClockInStep(cfg, t, e);
    CreditIsFlow(cfg, t.st, e);
    AfterClock(cfg, ClockRule(cfg, t, e), e);
    hide InStep, DropLeaked;
  }

  /** Committing a whole refresh at each of the given instants, in order. */
  function RefreshEach(cfg: Config, s: State, es: seq<Env>): State
    requires cfg.Valid()
    decreases |es|
  {
    if es == [] then s else RefreshEach(cfg, Refresh(cfg, s, es[0]).st, es[1..])
  }

  predicate Ascending(es: seq<Env>) {
    forall i, j :: 0 <= i < j < |es| ==> es[i].wall <= es[j].wall
  }

  /** The bucket and its clock: what lazy and eager credit could disagree on. */
  predicate SameCredit(s: State, s': State) {
    s.tokens == s'.tokens && s.refillTotal == s'.refillTotal && s.lastWall == s'.lastWall && s.lastMono == s'.lastMono
  }

  /** Filling up to the burst in two goes is filling once. */
  lemma FillTwice(burst: real, tokens: real, a: real, b: real)
    requires a >= 0.0 && b >= 0.0
    ensures RMin(burst, RMin(burst, tokens + a) + b) == RMin(burst, tokens + (a + b))
  {
  }

  lemma RefreshTwice(cfg: Config, s: State, e: Env, e': Env)
    requires cfg.Valid() && cfg.clockStepCap >= 0.0 && s.tokens <= cfg.burst
    requires InStep(s, e) && InStep(s, e') && e.wall <= e'.wall
    ensures var s1 := Refresh(cfg, s, e).st;
            && s1.tokens <= cfg.burst && InStep(s1, e')
            && SameCredit(Refresh(cfg, s1, e').st, Refresh(cfg, s, e').st)
  {
    hide Refresh, Flow;
    RefillIsExact(cfg, s, e);
    RefillIsExact(cfg, s, e');
    var s1 := Refresh(cfg, s, e).st;
    RefillIsExact(cfg, s1, e');
    var a, b := Flow(cfg, e.wall - s.lastWall), Flow(cfg, e'.wall - e.wall);
    Chain(cfg, s.lastWall, e.wall, e'.wall);
    FlowGrows(cfg, 0.0, e.wall - s.lastWall);
    FlowGrows(cfg, 0.0, e'.wall - e.wall);
    FillTwice(cfg.burst, s.tokens, a, b);
  }

  /**
   * Committing whole refreshes at any set of instants, or only at the last
   * one, leaves the same tokens, the same refill total and the same clock
   * baseline, whatever else the refreshes do.
   */
  lemma {:induction false} EagerCreditIsLazyCredit(cfg: Config, s: State, es: seq<Env>, e: Env)
    requires cfg.Valid() && cfg.clockStepCap >= 0.0 && s.tokens <= cfg.burst && Ascending(es + [e])
    requires InStep(s, e) && forall i :: 0 <= i < |es| ==> InStep(s, es[i])
    ensures SameCredit(Refresh(cfg, RefreshEach(cfg, s, es), e).st, Refresh(cfg, s, e).st)
    decreases |es|
  {
    hide Refresh, InStep;
    if es != [] {
      var s1 := Refresh(cfg, s, es[0]).st;
      assert es[0] == (es + [e])[0] && e == (es + [e])[|es|];
      RefreshTwice(cfg, s, es[0], e);
      forall i | 0 <= i < |es[1..]|
        ensures InStep(s1, es[1..][i])
      {
        assert es[1..][i] == (es + [e])[i + 1] == es[i + 1];
        RefreshTwice(cfg, s, es[0], es[i + 1]);
      }
      assert es[1..] + [e] == (es + [e])[1..];
      EagerCreditIsLazyCredit(cfg, s1, es[1..], e);
    }
  }

  /** The phases that act on the queue, slot, breaker and registry, after the clock rule. */
  function AfterClockRule(cfg: Config, t: Txn, e: Env): Txn
    requires cfg.Valid()
  {
    EvictPhase(cfg, ReconcilePhase(CooldownPhase(ProbePhase(cfg, PrunePending(t, e), e), e), e), e)
  }

  /**
   * Skipping the write of an idle poll is invisible: if a refresh left the
   * document clean, a later transaction computes the same working copy from
   * the unwritten document as it would have from the written one.
   */
  lemma SkippedWriteIsInvisible(cfg: Config, s: State, e: Env, e': Env)
    requires cfg.Valid() && cfg.clockStepCap >= 0.0 && s.tokens <= cfg.burst
    requires InStep(s, e) && InStep(s, e') && e.wall <= e'.wall
    requires !Refresh(cfg, s, e).dirty
    ensures Refresh(cfg, Refresh(cfg, s, e).st, e') == Refresh(cfg, s, e')
  {
    var t := DropLeaked(Txn(s, false), e');
    var s1 := Refresh(cfg, s, e).st;
    CleanClock(cfg, s, e);
    assert s1 == CreditElapsed(cfg, s, e);
    CreditTwice(cfg, s, e, e');
    var t1 := DropLeaked(Txn(s1, false), e');
    assert t1 == Txn(CreditElapsed(cfg, t.st, e), t.dirty);
    CreditTwice(cfg, t.st, e, e');
    ClockInStep(cfg, t, e');
    ClockInStep(cfg, t1, e');
    assert ClockRule(cfg, t1, e') == ClockRule(cfg, t, e');
    assert Refresh(cfg, s1, e') == AfterClockRule(cfg, ClockRule(cfg, t1, e'), e');
  }

  lemma CleanClock(cfg: Config, s: State, e: Env)
    requires cfg.Valid() && cfg.clockStepCap >= 0.0 && InStep(s, e) && !Refresh(cfg, s, e).dirty
    ensures Refresh(cfg, s, e).st == CreditElapsed(cfg, s, e)
  {
    CleanRefresh(cfg, s, e);
    var k := Steps(cfg, s, e);
    ClockInStep(cfg, k.leaked, e);
    RefreshClockFields(cfg, k.clock, e);
  }

  lemma RefreshClockFields(cfg: Config, t: Txn, e: Env)
    requires cfg.Valid()
    ensures var s' := AfterClockRule(cfg, t, e).st;
            s'.tokens == t.st.tokens && s'.refillTotal == t.st.refillTotal
            && s'.lastWall == t.st.lastWall && s'.lastMono == t.st.lastMono
  {
    hide Run, Next, Enabled, WorldOk, Inv, Agrees, Refresh, Poll, Record, PrepareSend, Select, Register, Issue,
      TryGrant, ClockRule, FinishPoll, FinishReport, TxnOf, Evolves, SlotDiscipline, IssuedIds, HistoryOfRecord,
      HistoryOfRefresh, RunTxn;
  }
}
