/**
 * What a reported outcome and a send check change, field by field, and the
 * rung of the cooldown ladder that every trip of a run arms.
 */
module LimiterOutcomes {
  import opened Basics
  import opened LimiterConfig
  import opened LimiterState
  import opened LimiterSpec
  import opened LimiterInvariants
  import opened LimiterProtocol
  import opened LimiterHistory
  import opened LimiterWorld
  import opened LimiterSafety
  import opened LimiterSlot
  import opened LimiterRefresh
  import opened LimiterRate

  // ------------------------------------------------------------------- reports

  /** A report is applied to an open grant only; otherwise it changes nothing and says why. */
  lemma OnlyOpenGrantsAreRecorded(cfg: Config, t: Txn, g: Gid, o: Outcome, wall: real)
    requires cfg.Valid()
    ensures var (t', result) := Record(cfg, t, g, o, wall);
            && (result == UNKNOWN_GRANT <==> g !in t.st.grants)
            && (result == DUPLICATE <==> g in t.st.grants && t.st.grants[g].outcome.Some?)
            && (result == APPLIED <==> g in t.st.grants && t.st.grants[g].outcome == None)
            && (result != APPLIED ==> t'.st == t.st)
            && (result == APPLIED ==> t'.dirty && t'.st.grants == t.st.grants[g := t.st.grants[g].(outcome := Some(o))])
  {
  }

  lemma OutcomeMoves(cfg: Config, s: State, g: Gid, o: Outcome, wall: real)
    requires cfg.Valid()
    ensures var s', b := ApplyOutcome(cfg, s, g, o, wall), s.breaker;
            var emptied := if HoldsSlot(s, g) then b.(probe := None) else b;
            if g.epoch == s.epoch && o == RATE_LIMIT then
              var level := Min(b.level + 1, |cfg.cooldowns|);
              s' == s.(epoch := s.epoch + 1, epochStart := wall, epochGrants := 0, usage := PerPrio(0, 0, 0, 0),
                       breaker := Breaker(OPEN, level, wall + cfg.cooldowns[level - 1], 0, b.unknownCount, None))
            else if o == RATE_LIMIT || (o == OK && g.epoch != s.epoch) then s' == s
            else if o != OK then s' == s.(breaker := emptied)
            else if b.state == RECOVERY && b.streak + 1 >= cfg.recoveryTarget then
              s' == s.(breaker := emptied.(state := CLOSED, level := 0, streak := 0))
            else s' == s.(breaker := emptied.(streak := b.streak + 1))
  {
  }

  /**
   * What the outcome of an open grant changes besides its record. A rate
   * limit of the current epoch opens the breaker, one level up and never past
   * the ladder, for the rung of the new level, and starts an epoch with empty
   * counters. A success of the epoch frees its slot and counts, and the
   * target closes a recovering breaker. Any other outcome only frees the
   * grant's slot; results of older epochs move nothing but that.
   */
  lemma OutcomeChanges(cfg: Config, t: Txn, g: Gid, o: Outcome, wall: real)
    requires cfg.Valid() && g in t.st.grants && t.st.grants[g].outcome == None
    ensures var s := t.st.(grants := t.st.grants[g := t.st.grants[g].(outcome := Some(o))]);
            var s', b := Record(cfg, t, g, o, wall).0.st, s.breaker;
            var holds := b.probe.Some? && b.probe.value.holder == g;
            var emptied := if holds then b.(probe := None) else b;
            if g.epoch == s.epoch && o == RATE_LIMIT then
              var level := Min(b.level + 1, |cfg.cooldowns|);
              s' == s.(epoch := s.epoch + 1, epochStart := wall, epochGrants := 0, usage := PerPrio(0, 0, 0, 0),
                       breaker := Breaker(OPEN, level, wall + cfg.cooldowns[level - 1], 0, b.unknownCount, None))
            else if o == RATE_LIMIT || (o == OK && g.epoch != s.epoch) then s' == s
            else if o != OK then s' == s.(breaker := emptied)
            else if b.state == RECOVERY && b.streak + 1 >= cfg.recoveryTarget then
              s' == s.(breaker := emptied.(state := CLOSED, level := 0, streak := 0))
            else s' == s.(breaker := emptied.(streak := b.streak + 1))
  {
    hide ApplyOutcome;
    OutcomeMoves(cfg, t.st.(grants := CloseGrant(t.st.grants, g, o)), g, o, wall);
  }

  // --------------------------------------------------------------- send checks

  /**
   * A send check of a grant that is not open changes nothing. An open one is
   * revoked when its epoch is over or its slot is not its own; otherwise it
   * and its slot bear the send marker afterwards. Nothing else changes.
   */
  lemma SendCheckChanges(t: Txn, g: Gid)
    ensures var s, s' := t.st, PrepareSend(t, g).0.st;
            if g !in s.grants || s.grants[g].outcome.Some? then
              s' == s && !PrepareSend(t, g).1
            else
              var a := s.grants[g];
              var b := s.breaker;
              if g.epoch == s.epoch && (a.probe ==> b.probe.Some? && b.probe.value.holder == g) then
                && PrepareSend(t, g).1
                && s' == s.(grants := s.grants[g := a.(sent := true)],
                            breaker := if a.probe then b.(probe := Some(b.probe.value.(marker := true))) else b)
              else
                && !PrepareSend(t, g).1
                && s' == s.(grants := s.grants[g := a.(outcome := Some(REVOKED))])
  {
    if g in t.st.grants && t.st.grants[g].outcome == None && g.epoch == t.st.epoch
       && (t.st.grants[g].probe ==> HoldsSlot(t.st, g)) {
      PrepareMarks(t, g);
      hide PrepareSend;
    }
  }

  // ------------------------------------------------------- the rung of a trip

  /** The trips a step adds to the history, if it can be seen to have run. */
  lemma TripsOfReport(cfg: Config, w: World, g: Gid, o: Outcome, e: Env, wr: Write)
    requires cfg.Valid()
    ensures var t := Refresh(cfg, w.st, e);
            var t' := Record(cfg, t, g, o, e.wall).0;
            StepReport(cfg, w, g, o, e, wr).h.trips ==
            if Shows(t', wr) then HistoryOfRecord(cfg, t.st, g, o, HistoryOfRefresh(w.st, e, w.h)).trips else w.h.trips
  {
    hide Refresh, Record, HistoryOfRecord, HistoryOfRefresh;
  }

  lemma TripsOfPoll(w: World, r: Rid, q: Polled, e: Env, wr: Write)
    requires r in w.waiters
    ensures FinishPoll(w, r, q, e, wr).h.trips == if Shows(q.t, wr) then HistoryOfRefresh(w.st, e, w.h).trips else w.h.trips
  {
    hide HistoryOfRefresh;
  }

  /** The trips a visible transaction appends: those of its refresh, and of its report if it is one. */
  lemma TripsOfStep(cfg: Config, w: World, a: Action)
    requires cfg.Valid() && Enabled(w, a)
    ensures Next(cfg, w, a).h.trips ==
            if !a.Writes() || !Shows(TxnOf(cfg, w, a), a.wr) then w.h.trips
            else
              var h1 := HistoryOfRefresh(w.st, a.e, w.h);
              if a.Report? then HistoryOfRecord(cfg, Refresh(cfg, w.st, a.e).st, a.g, a.o, h1).trips else h1.trips
  {
    hide Sound, Refresh, Record, Poll, PrepareSend, FinishPoll, FinishReport, HistoryOfRecord, HistoryOfRefresh, Inv,
      StepReport, Shows;
    match a
    case PollOnce(r, e, budget, wr) =>
      TripsOfPoll(w, r, Poll(cfg, w.st, w.waiters[r].prio, r, w.waiters[r].anchor, e, budget), e, wr);
    case Report(g, o, e, wr) => TripsOfReport(cfg, w, g, o, e, wr);
    case _ =>
  }

  /** The breaker was armed at this wall with the rung of its level. */
  predicate Armed(cfg: Config, b: Breaker, wall: real) {
    1 <= b.level <= |cfg.cooldowns| && b.cooldownUntil == wall + cfg.cooldowns[b.level - 1]
  }

  /** After a refresh has tripped, no operation moves level or cooldown again. */
  lemma OperationKeepsArmed(cfg: Config, w: World, a: Action)
    requires cfg.Valid() && Inv(cfg, w.st) && Enabled(w, a) && a.Writes()
    requires Refresh(cfg, w.st, a.e).st.epoch > w.st.epoch && Armed(cfg, Refresh(cfg, w.st, a.e).st.breaker, a.e.wall)
    ensures Armed(cfg, TxnOf(cfg, w, a).st.breaker, a.e.wall)
    ensures TxnOf(cfg, w, a).st.breaker.level == Refresh(cfg, w.st, a.e).st.breaker.level
  {
    hide Refresh, Poll, Record, PrepareSend, Drop, Inv;
    var t := Refresh(cfg, w.st, a.e);
    match a
    case PollOnce(r, e, budget, _) =>
      PollAfterRefresh(cfg, w.st, w.waiters[r].prio, r, w.waiters[r].anchor, e, budget);
    case GiveUp(r, _, _) => DropBreaker(t, r);
    case DropDemand(r, _, _) => DropBreaker(t, r);
    case Prepare(g, _, _) => PrepareBreaker(t, g);
    case Report(g, o, e, _) =>
      RefreshIds(cfg, w.st, e);
      InvIds(cfg, w.st);
      OldReportKeepsCooldown(cfg, t, g, o, e.wall);
    case Maintain(_, _) =>
  }

  lemma DropBreaker(t: Txn, r: Rid)
    ensures Drop(t, r).st.breaker == t.st.breaker
  {
  }

  lemma OldReportKeepsCooldown(cfg: Config, t: Txn, g: Gid, o: Outcome, wall: real)
    requires cfg.Valid() && (g in t.st.grants ==> g.epoch != t.st.epoch)
    ensures var b, b' := t.st.breaker, Record(cfg, t, g, o, wall).0.st.breaker;
            b'.level == b.level && b'.cooldownUntil == b.cooldownUntil
  {
  }

  lemma RefreshTrips(cfg: Config, s: State, e: Env, h: History)
    requires cfg.Valid() && Inv(cfg, s)
    ensures var trips := HistoryOfRefresh(s, e, h).trips;
            if trips == h.trips then Refresh(cfg, s, e).st.epoch == s.epoch
            else
              && Refresh(cfg, s, e).st.epoch == s.epoch + 1 && Armed(cfg, Refresh(cfg, s, e).st.breaker, e.wall)
              && Refresh(cfg, s, e).st.breaker.level == s.breaker.level
              && s.breaker.probe.Some? && trips == h.trips + [Trip(s.breaker.probe.value.holder, false)]
  {
    RefreshEpoch(cfg, s, e);
    if s.breaker.probe.Some? && HolderGone(s.breaker.probe.value, e) {
      DeadHolderIsResolved(cfg, s, e);
    }
    hide Refresh, Inv;
  }

  /** The trip of a report, with the rung written out; after a trip of its refresh it has none of its own. */
  lemma ReportTrips(cfg: Config, s: State, e: Env, g: Gid, o: Outcome, h: History)
    requires cfg.Valid() && Inv(cfg, s)
    requires HistoryOfRecord(cfg, Refresh(cfg, s, e).st, g, o, h).trips != h.trips
    ensures Refresh(cfg, s, e).st.epoch == s.epoch
    ensures Armed(cfg, Record(cfg, Refresh(cfg, s, e), g, o, e.wall).0.st.breaker, e.wall)
    ensures o == RATE_LIMIT && HistoryOfRecord(cfg, Refresh(cfg, s, e).st, g, o, h).trips == h.trips + [Trip(g, true)]
  {
    hide Refresh, Inv, Record;
    var t := Refresh(cfg, s, e);
    RefreshIds(cfg, s, e);
    InvIds(cfg, s);
    RefreshEpoch(cfg, s, e);
    assert g in t.st.grants && g in s.grants && g.epoch <= s.epoch;
    OutcomeChanges(cfg, t, g, o, e.wall);
    assert |cfg.cooldowns| >= 1;
  }

  /**
   * Every trip of a run arms the full rung of its level. A step adds at most
   * one: an escalating one by a rate limit its report wrote, whose level is
   * then the number of escalations since the breaker was last closed, or a
   * trip at the same level by a gone holder found by its refresh.
   */
  lemma TripsArmTheirRung(cfg: Config, ws: seq<World>, acts: seq<Action>, n: nat)
    requires Run(cfg, ws, acts) && n < |acts| && ws[n + 1].h.trips != ws[n].h.trips
    ensures var h, b, a := ws[n + 1].h, ws[n + 1].st.breaker, acts[n];
            && |h.trips| == |ws[n].h.trips| + 1 && h.trips[..|h.trips| - 1] == ws[n].h.trips
            && a.Writes()
            && 1 <= b.level == Min(h.bumps, |cfg.cooldowns|)
            && b.cooldownUntil == a.e.wall + cfg.cooldowns[b.level - 1]
            && (h.trips[|h.trips| - 1].bump ==> a.Report? && a.o == RATE_LIMIT && a.g == h.trips[|h.trips| - 1].cause)
            && (!h.trips[|h.trips| - 1].bump ==> b.level == ws[n].st.breaker.level)
  {
    hide Next, Enabled, WorldOk, Inv, Agrees, Refresh, Poll, Record, PrepareSend, Select, TxnOf, HistoryOfRefresh,
      HistoryOfRecord;
    var w, a := ws[n], acts[n];
    RunInvariant(cfg, ws, acts, n);
    EpochsAndLevels(cfg, ws, acts, n + 1);
    StepOf(cfg, ws, acts, n);
    hide Run;
    StepArms(cfg, w, a);
  }

  lemma StepArms(cfg: Config, w: World, a: Action)
    requires cfg.Valid() && WorldOk(cfg, w) && Enabled(w, a) && Next(cfg, w, a).h.trips != w.h.trips
    ensures var h, b := Next(cfg, w, a).h, Next(cfg, w, a).st.breaker;
            && a.Writes() && Armed(cfg, b, a.e.wall)
            && (|| (a.Report? && a.o == RATE_LIMIT && h.trips == w.h.trips + [Trip(a.g, true)])
                || (b.level == w.st.breaker.level
                    && exists g :: h.trips == w.h.trips + [Trip(g, false)]))
  {
    hide Next, Enabled, WorldOk, Inv, Agrees, Refresh, Poll, Record, PrepareSend, Armed, HistoryOfRefresh,
      HistoryOfRecord, LocksOk, SlotWatched, QueueOk;
    DocumentOk(cfg, w);
    NextDocument(cfg, w, a);
    TripsOfStep(cfg, w, a);
    RefreshTrips(cfg, w.st, a.e, w.h);
    var h1 := HistoryOfRefresh(w.st, a.e, w.h);
    if a.Report? && HistoryOfRecord(cfg, Refresh(cfg, w.st, a.e).st, a.g, a.o, h1).trips != h1.trips {
      ReportTrips(cfg, w.st, a.e, a.g, a.o, h1);
    } else {
      OperationKeepsArmed(cfg, w, a);
    }
  }
}
