/** Safety over whole runs: what no interleaving of processes, deaths and failed writes can break. */
module LimiterSafety {
  import opened Basics
  import opened LimiterConfig
  import opened LimiterState
  import opened LimiterSpec
  import opened LimiterInvariants
  import opened LimiterProtocol
  import opened LimiterHistory
  import opened LimiterWorld

  /** The working copy a writing action tries to commit. */
  ghost function TxnOf(cfg: Config, w: World, a: Action): Txn
    requires cfg.Valid() && Enabled(w, a) && a.Writes()
  {
    match a
    case PollOnce(r, e, budget, _) => Poll(cfg, w.st, w.waiters[r].prio, r, w.waiters[r].anchor, e, budget).t
    case GiveUp(r, e, _) => Drop(Refresh(cfg, w.st, e), r)
    case DropDemand(r, e, _) => Drop(Refresh(cfg, w.st, e), r)
    case Prepare(g, e, _) => PrepareSend(Refresh(cfg, w.st, e), g).0
    case Report(g, o, e, _) => Record(cfg, Refresh(cfg, w.st, e), g, o, e.wall).0
    case Maintain(e, _) => Refresh(cfg, w.st, e)
  }

  /** Every step leaves the durable document alone or replaces it by its committed working copy. */
  lemma NextDocument(cfg: Config, w: World, a: Action)
    requires cfg.Valid() && Enabled(w, a)
    ensures Next(cfg, w, a).st == if a.Writes() then Commit(w.st, TxnOf(cfg, w, a), a.wr) else w.st
  {
    hide Refresh, Poll, Record, PrepareSend, HistoryOfRecord, HistoryOfRefresh;
  }

  /** The history's clock is the latest transaction's reading. */
  lemma WallNow(cfg: Config, w: World, a: Action)
    requires cfg.Valid() && Enabled(w, a)
    ensures Next(cfg, w, a).h.wallNow == if a.Writes() then a.e.wall else w.h.wallNow
  {
    hide Refresh, Poll, Record, PrepareSend, HistoryOfRecord, HistoryOfRefresh;
  }

  // ------------------------------------------------------ documents over time

  lemma TxnEvolves(cfg: Config, w: World, a: Action)
    requires cfg.Valid() && Inv(cfg, w.st) && Enabled(w, a) && a.Writes()
    ensures Inv(cfg, TxnOf(cfg, w, a).st) && Evolves(w.st, TxnOf(cfg, w, a).st)
  {
    hide Run, Next, WorldOk, Inv, Agrees, Refresh, Poll, Record, PrepareSend, Select, Evolves;
    var t := Refresh(cfg, w.st, a.e);
    RefreshKeeps(cfg, w.st, a.e);
    InvIds(cfg, w.st);
    match a
    case PollOnce(r, e, budget, _) =>
      PollKeeps(cfg, w.st, w.waiters[r].prio, r, w.waiters[r].anchor, e, budget);
    case GiveUp(r, _, _) =>
      DropKeeps(cfg, t, r);
      EvolvesTransitive(w.st, t.st, Drop(t, r).st);
    case DropDemand(r, _, _) =>
      DropKeeps(cfg, t, r);
      EvolvesTransitive(w.st, t.st, Drop(t, r).st);
    case Prepare(g, _, _) =>
      PrepareKeeps(cfg, t, g);
      EvolvesTransitive(w.st, t.st, PrepareSend(t, g).0.st);
    case Report(g, o, e, _) =>
      RecordKeeps(cfg, t, g, o, e.wall);
      EvolvesTransitive(w.st, t.st, Record(cfg, t, g, o, e.wall).0.st);
    case Maintain(_, _) =>
  }

  lemma StepEvolves(cfg: Config, w: World, a: Action)
    requires cfg.Valid() && WorldOk(cfg, w) && Enabled(w, a)
    ensures Evolves(w.st, Next(cfg, w, a).st)
  {
    hide Run, Next, Enabled, Inv, Agrees, Refresh, Poll, Record, PrepareSend, Select, TxnOf, Evolves;
    SameEvolves(w.st);
    NextDocument(cfg, w, a);
    if a.Writes() {
      TxnEvolves(cfg, w, a);
    }
  }

  lemma SameEvolves(s: State)
    ensures Evolves(s, s)
  {
  }

  lemma InvIds(cfg: Config, s: State)
    requires Inv(cfg, s)
    ensures IssuedIds(s) && SlotDiscipline(s) && Accounts(cfg, s)
  {
  }

  /** Any later document of a run has evolved from any earlier one. */
  lemma {:induction false} RunEvolves(cfg: Config, ws: seq<World>, acts: seq<Action>, i: nat, j: nat)
    requires Run(cfg, ws, acts) && i <= j < |ws|
    ensures Evolves(ws[i].st, ws[j].st)
    decreases j
  {
    hide Next, Enabled, WorldOk, Inv, Agrees, Refresh, Poll, Record, PrepareSend, Select, TxnOf, Evolves;
    if i == j {
      SameEvolves(ws[i].st);
    } else {
      RunEvolves(cfg, ws, acts, i, j - 1);
      RunInvariant(cfg, ws, acts, i);
      RunInvariant(cfg, ws, acts, j - 1);
      assert ws[j - 1 + 1] == Next(cfg, ws[j - 1], acts[j - 1]);
      StepEvolves(cfg, ws[j - 1], acts[j - 1]);
      DocumentOk(cfg, ws[i]);
      InvIds(cfg, ws[i].st);
      EvolvesTransitive(ws[i].st, ws[j - 1].st, ws[j].st);
    }
  }

  lemma DocumentOk(cfg: Config, w: World)
    requires WorldOk(cfg, w)
    ensures Inv(cfg, w.st)
  {
  }

  lemma WorldInv(cfg: Config, w: World)
    requires WorldOk(cfg, w)
    ensures Inv(cfg, w.st) && Agrees(cfg, w.st, w.h) && LocksOk(w) && SlotWatched(w) && QueueOk(w)
  {
  }

  /** A terminal outcome is final: later the record is the same, or gone for good. */
  lemma TerminalForever(cfg: Config, ws: seq<World>, acts: seq<Action>, i: nat, j: nat, g: Gid)
    requires Run(cfg, ws, acts) && i <= j < |ws| && Terminal(ws[i].st, g)
    ensures g in ws[j].st.grants ==> ws[j].st.grants[g] == ws[i].st.grants[g]
    ensures !Open(ws[j].st, g)
  {
    RunEvolves(cfg, ws, acts, i, j);
  }

  // -------------------------------------------------------------- conservation

  /** Every token is accounted for in every reachable document, and every GRANTED answer spent one. */
  lemma TokensConserved(cfg: Config, ws: seq<World>, acts: seq<Action>, i: nat)
    requires Run(cfg, ws, acts) && i < |ws|
    ensures var s := ws[i].st;
            && s.tokens == cfg.burst + s.refillTotal - s.totalGrants as real
            && 0.0 <= s.tokens <= cfg.burst
            && s.lastNum == s.totalGrants
            && s.usage.p0 + s.usage.p1 + s.usage.p2 + s.usage.p3 == s.epochGrants
            && |ws[i].h.granted| <= s.totalGrants
  {
    RunInvariant(cfg, ws, acts, i);
  }

  // -------------------------------------------------------------- exactly once

  /** The id this action returns to its caller as GRANTED, if any. */
  ghost function Returned(cfg: Config, w: World, a: Action): Option<Gid>
    requires cfg.Valid() && Enabled(w, a)
  {
    match a
    case PollOnce(r, e, budget, wr) =>
      var q := Poll(cfg, w.st, w.waiters[r].prio, r, w.waiters[r].anchor, e, budget);
      if q.result.Granted? && !Fails(q.t, wr) then Some(q.result.gid) else None
    case _ => None
  }

  /** The id for which this action answers APPLIED, if any. */
  function Applies(cfg: Config, w: World, a: Action): Option<Gid>
    requires cfg.Valid() && Enabled(w, a)
  {
    match a
    case Report(g, o, e, wr) =>
      var (t, result) := Record(cfg, Refresh(cfg, w.st, e), g, o, e.wall);
      if result == APPLIED && !Fails(t, wr) then Some(g) else None
    case _ => None
  }

  lemma FinishPollHistory(w: World, r: Rid, q: Polled, e: Env, wr: Write)
    requires r in w.waiters
    ensures var h := FinishPoll(w, r, q, e, wr).h;
            && h.granted == (if q.result.Granted? && !Fails(q.t, wr) then w.h.granted + {q.result.gid} else w.h.granted)
            && h.applied == w.h.applied && h.ok <= w.h.ok
  {
  }

  lemma FinishReportHistory(w: World, s: State, t: Txn, result: RecordResult, h': History, g: Gid, o: Outcome,
                            e: Env, wr: Write)
    requires h'.granted == w.h.granted && h'.applied == w.h.applied
    ensures var h := FinishReport(w, s, t, result, h', g, o, e, wr).h;
            && h.granted == w.h.granted
            && h.applied == (if result == APPLIED && !Fails(t, wr) then w.h.applied + {g} else w.h.applied)
            && h.ok == (if Shows(t, wr) then h'.ok else w.h.ok)
  {
  }

  lemma HistoryOfRecordFrame(cfg: Config, s: State, g: Gid, o: Outcome, h: History)
    ensures var h' := HistoryOfRecord(cfg, s, g, o, h);
            h'.granted == h.granted && h'.applied == h.applied && h'.ok <= h.ok + {g}
            && (h'.ok <= h.ok || o == OK)
  {
  }

  /** The history records exactly the answers the actions gave. */
  lemma AnswersRecorded(cfg: Config, w: World, a: Action)
    requires cfg.Valid() && Enabled(w, a)
    ensures var h := Next(cfg, w, a).h;
            && h.granted == (if Returned(cfg, w, a).Some? then w.h.granted + {Returned(cfg, w, a).value} else w.h.granted)
            && h.applied == (if Applies(cfg, w, a).Some? then w.h.applied + {Applies(cfg, w, a).value} else w.h.applied)
  {
    hide Run, WorldOk, Inv, Agrees, Refresh, Poll, Record, PrepareSend, Select, Register, Issue, TryGrant, ClockRule,
      ProbePhase, ReconcilePhase, EvictPhase, FinishPoll, FinishReport, TxnOf, Evolves, SlotDiscipline, IssuedIds,
      HistoryOfRecord;
    match a
    case PollOnce(r, e, budget, wr) =>
      FinishPollHistory(w, r, Poll(cfg, w.st, w.waiters[r].prio, r, w.waiters[r].anchor, e, budget), e, wr);
    case Report(g, o, e, wr) =>
      var t := Refresh(cfg, w.st, e);
      var (t', result) := Record(cfg, t, g, o, e.wall);
      var h1 := HistoryOfRefresh(w.st, e, w.h);
      HistoryFrame(cfg, w, e);
      HistoryOfRecordFrame(cfg, t.st, g, o, h1);
      FinishReportHistory(w, t.st, t', result, HistoryOfRecord(cfg, t.st, g, o, h1), g, o, e, wr);
    case _ =>
  }

  /** The answers of earlier steps are remembered. */
  lemma {:induction false} AnswersRemembered(cfg: Config, ws: seq<World>, acts: seq<Action>, i: nat, j: nat)
    requires Run(cfg, ws, acts) && i < j < |ws|
    ensures Returned(cfg, ws[i], acts[i]).Some? ==> Returned(cfg, ws[i], acts[i]).value in ws[j].h.granted
    ensures Applies(cfg, ws[i], acts[i]).Some? ==> Applies(cfg, ws[i], acts[i]).value in ws[j].h.applied
    decreases j
  {
    hide Next, Returned, Applies, Enabled;
    assert ws[j - 1 + 1] == Next(cfg, ws[j - 1], acts[j - 1]);
    AnswersRecorded(cfg, ws[j - 1], acts[j - 1]);
    if i < j - 1 {
      AnswersRemembered(cfg, ws, acts, i, j - 1);
    }
  }

  /** A granted id is new, and is in the durable registry, open, when the caller sees it. */
  lemma GrantIsFresh(cfg: Config, w: World, a: Action)
    requires cfg.Valid() && WorldOk(cfg, w) && Enabled(w, a) && Returned(cfg, w, a).Some?
    ensures var g := Returned(cfg, w, a).value;
            g !in w.h.granted && Open(Next(cfg, w, a).st, g) && g.num == w.st.lastNum + 1
  {
    hide Run, Inv, Refresh, Poll, Record, PrepareSend, Select, Register, Issue, TryGrant, ClockRule, ProbePhase,
      ReconcilePhase, EvictPhase, FinishReport, TxnOf, Evolves, SlotDiscipline, IssuedIds, HistoryOfRecord,
      HistoryOfRefresh;
    var r, e, budget, wr := a.r, a.e, a.budget, a.wr;
    PollAfterRefresh(cfg, w.st, w.waiters[r].prio, r, w.waiters[r].anchor, e, budget);
    RefreshFrames(cfg, w.st, e);
    var q := Poll(cfg, w.st, w.waiters[r].prio, r, w.waiters[r].anchor, e, budget);
    assert GrantedOk(w.st, w.h.granted);
    assert Open(q.t.st, q.result.gid) by { PollOpens(cfg, w.st, w.waiters[r].prio, r, w.waiters[r].anchor, e, budget); }
    hide Agrees;
  }

  lemma PollOpens(cfg: Config, s: State, p: Prio, r: Rid, anchor: Option<real>, e: Env, budget: real)
    requires cfg.Valid() && Inv(cfg, s)
    ensures var q := Poll(cfg, s, p, r, anchor, e, budget); q.result.Granted? ==> Open(q.t.st, q.result.gid)
  {
    RefreshKeeps(cfg, s, e);
    var t := Refresh(cfg, s, e);
    RegisterKeeps(cfg, t, p, r, anchor, e);
    match Register(cfg, t, p, r, anchor, e)
    case Full =>
    case Stale =>
    case Registered(t', a) => SelectFrame(cfg, t', p, r, a, e, budget);
  }

  /** An id answered APPLIED was open in the document and had never been answered APPLIED. */
  lemma ApplyIsFirst(cfg: Config, w: World, a: Action)
    requires cfg.Valid() && WorldOk(cfg, w) && Enabled(w, a) && Applies(cfg, w, a).Some?
    ensures var g := Applies(cfg, w, a).value; g !in w.h.applied && Open(w.st, g)
    ensures Terminal(Next(cfg, w, a).st, a.g) && Next(cfg, w, a).st.grants[a.g].outcome == Some(a.o)
  {
    hide Run, Enabled, Inv, Refresh, Poll, Record, PrepareSend, Select, TxnOf;
    var t := Refresh(cfg, w.st, a.e);
    RefreshKeeps(cfg, w.st, a.e);
    RefreshFrames(cfg, w.st, a.e);
    RecordKeeps(cfg, t, a.g, a.o, a.e.wall);
    assert AllDone(w.st, w.h.applied);
    assert Open(t.st, a.g) && Evolves(w.st, t.st);
    InvIds(cfg, t.st);
    assert a.g.num <= t.st.lastNum == w.st.lastNum;
    hide Agrees, FinishReport;
    ReportResult(cfg, w, a.g, a.o, a.e, a.wr);
  }

  lemma ReportResult(cfg: Config, w: World, g: Gid, o: Outcome, e: Env, wr: Write)
    requires cfg.Valid() && WorldOk(cfg, w)
    ensures var (t, result) := Record(cfg, Refresh(cfg, w.st, e), g, o, e.wall);
            StepReport(cfg, w, g, o, e, wr).st == Commit(w.st, t, wr)
            && (result == APPLIED ==> t.dirty && Terminal(t.st, g) && t.st.grants[g].outcome == Some(o))
  {
    var t := Refresh(cfg, w.st, e);
    RefreshKeeps(cfg, w.st, e);
    RecordKeeps(cfg, t, g, o, e.wall);
  }

  /** Over any run, no id is returned as GRANTED twice and none is answered APPLIED twice. */
  lemma ExactlyOnce(cfg: Config, ws: seq<World>, acts: seq<Action>, i: nat, j: nat)
    requires Run(cfg, ws, acts) && i < j < |acts|
    ensures Returned(cfg, ws[i], acts[i]).Some? ==> Returned(cfg, ws[i], acts[i]) != Returned(cfg, ws[j], acts[j])
    ensures Applies(cfg, ws[i], acts[i]).Some? ==> Applies(cfg, ws[i], acts[i]) != Applies(cfg, ws[j], acts[j])
  {
    hide Next, Returned, Applies;
    AnswersRemembered(cfg, ws, acts, i, j);
    RunInvariant(cfg, ws, acts, j);
    if Returned(cfg, ws[j], acts[j]).Some? {
      GrantIsFresh(cfg, ws[j], acts[j]);
    }
    if Applies(cfg, ws[j], acts[j]).Some? {
      ApplyIsFirst(cfg, ws[j], acts[j]);
    }
  }

  /**
   * Each id moves the breaker at most once: the causes of all trips and of all
   * closings of a run are pairwise distinct.
   */
  lemma OneTransitionPerGrant(cfg: Config, ws: seq<World>, acts: seq<Action>, n: nat)
    requires Run(cfg, ws, acts) && n < |ws|
    ensures var h := ws[n].h;
            && (forall i, j :: 0 <= i < j < |h.trips| ==> h.trips[i].cause != h.trips[j].cause)
            && (forall i, j :: 0 <= i < j < |h.closers| ==> h.closers[i] != h.closers[j])
            && (forall i, j :: 0 <= i < |h.closers| && 0 <= j < |h.trips| ==> h.closers[i] != h.trips[j].cause)
  {
    RunInvariant(cfg, ws, acts, n);
    forall i, j | 0 <= i < j < |ws[n].h.trips|
      ensures ws[n].h.trips[i].cause != ws[n].h.trips[j].cause
    {
      assert ws[n].h.trips[i].cause.epoch == i + 1 && ws[n].h.trips[j].cause.epoch == j + 1;
    }
  }

  // ----------------------------------------------------------------- the epoch

  /** The epoch counts the trips, one per epoch, and the level counts the escalations since the last closing. */
  lemma EpochsAndLevels(cfg: Config, ws: seq<World>, acts: seq<Action>, n: nat)
    requires Run(cfg, ws, acts) && n < |ws|
    ensures var s := ws[n].st;
            var h := ws[n].h;
            && s.epoch == |h.trips| + 1
            && (forall i :: 0 <= i < |h.trips| ==> h.trips[i].cause.epoch == i + 1)
            && s.breaker.level == Min(|cfg.cooldowns|, h.bumps)
            && (s.breaker.state == CLOSED <==> s.breaker.level == 0)
            && (s.breaker.probe.Some? ==> s.breaker.state == RECOVERY)
  {
    RunInvariant(cfg, ws, acts, n);
  }

  /** No transaction trips twice. */
  lemma OneTripPerReport(cfg: Config, s: State, g: Gid, o: Outcome, e: Env)
    requires cfg.Valid() && Inv(cfg, s)
    ensures s.epoch <= Record(cfg, Refresh(cfg, s, e), g, o, e.wall).0.st.epoch <= s.epoch + 1
  {
    RefreshKeeps(cfg, s, e);
    RefreshEpoch(cfg, s, e);
    var t := Refresh(cfg, s, e);
    InvIds(cfg, s);
    RefreshFrames(cfg, s, e);
    RefreshIds(cfg, s, e);
    RecordEpoch(cfg, t, g, o, e.wall);
    hide Refresh, Inv, Record, RefreshFrame;
    if t.st.epoch == s.epoch + 1 && Open(t.st, g) {
      assert g.epoch <= s.epoch;
    }
  }

  /** A report starts an epoch exactly when it is a rate limit on an open grant of the current one. */
  lemma RecordEpoch(cfg: Config, t: Txn, g: Gid, o: Outcome, wall: real)
    requires cfg.Valid()
    ensures Record(cfg, t, g, o, wall).0.st.epoch ==
            if Open(t.st, g) && g.epoch == t.st.epoch && o == RATE_LIMIT then t.st.epoch + 1 else t.st.epoch
  {
  }

  lemma RefreshIds(cfg: Config, s: State, e: Env)
    requires cfg.Valid() && Inv(cfg, s)
    ensures forall g :: g in Refresh(cfg, s, e).st.grants ==> g in s.grants
  {
    RefreshKeeps(cfg, s, e);
    RefreshFrames(cfg, s, e);
    InvIds(cfg, Refresh(cfg, s, e).st);
    hide Refresh, Inv;
  }

  /** A refresh starts a new epoch exactly when the holder is gone after its send marker. */
  lemma RefreshEpoch(cfg: Config, s: State, e: Env)
    requires cfg.Valid()
    ensures var indeterminate := s.breaker.probe.Some? && HolderGone(s.breaker.probe.value, e) && s.breaker.probe.value.marker;
            Refresh(cfg, s, e).st.epoch == (if indeterminate then s.epoch + 1 else s.epoch)
  {
    HeadFrames(cfg, s, e);
    var t := Steps(cfg, s, e).pruned;
    assert t.st.epoch == s.epoch;
    var t' := ProbePhase(cfg, t, e);
    assert EvictPhase(cfg, ReconcilePhase(CooldownPhase(t', e), e), e).st.epoch == t'.st.epoch;
  }

  /** A fenced result is evidence only: it changes no breaker field, and a fenced send is refused. */
  lemma StaleGrantsAreFenced(cfg: Config, t: Txn, g: Gid, o: Outcome, wall: real)
    requires cfg.Valid() && Inv(cfg, t.st) && g.epoch != t.st.epoch
    ensures var s' := Record(cfg, t, g, o, wall).0.st;
            s'.breaker == t.st.breaker && s'.epoch == t.st.epoch && s'.usage == t.st.usage && s'.tokens == t.st.tokens
    ensures !PrepareSend(t, g).1 && PrepareSend(t, g).0.st.breaker == t.st.breaker
  {
    InvIds(cfg, t.st);
  }

  /**
   * In a document that satisfies the invariant a send is allowed exactly for
   * an open grant of the current epoch; it then bears the send marker, and so
   * does the slot when the grant holds it.
   */
  lemma SendIsAllowedIff(cfg: Config, t: Txn, g: Gid)
    requires cfg.Valid() && Inv(cfg, t.st)
    ensures var (t', allowed) := PrepareSend(t, g);
            && (allowed <==> Open(t.st, g) && g.epoch == t.st.epoch)
            && (allowed ==> Open(t'.st, g) && t'.st.grants[g].sent)
            && (allowed && HoldsSlot(t.st, g) ==> HoldsSlot(t'.st, g) && t'.st.breaker.probe.value.marker)
            && (!allowed ==> !Open(t'.st, g))
  {
    InvIds(cfg, t.st);
    assert BreakerShape(cfg, t.st.breaker);
    hide Inv;
  }

  // ------------------------------------------------------------------ recovery

  /** In recovery the open grants of the current epoch are at most one: the slot's holder. */
  lemma ProbeIsExclusive(cfg: Config, ws: seq<World>, acts: seq<Action>, n: nat, g: Gid)
    requires Run(cfg, ws, acts) && n < |ws|
    requires ws[n].st.breaker.state == RECOVERY && Open(ws[n].st, g) && g.epoch == ws[n].st.epoch
    ensures HoldsSlot(ws[n].st, g)
    ensures forall g' :: Open(ws[n].st, g') && g'.epoch == ws[n].st.epoch ==> g' == g
  {
    RunInvariant(cfg, ws, acts, n);
    InvIds(cfg, ws[n].st);
  }

  /**
   * RECOVERY becomes CLOSED only through the report that completes the target:
   * the OKs of the epoch, a set of distinct ids, have reached it.
   */
  lemma ClosingNeedsTheTarget(cfg: Config, ws: seq<World>, acts: seq<Action>, n: nat)
    requires Run(cfg, ws, acts) && n < |acts|
    requires ws[n].st.breaker.state != CLOSED && ws[n + 1].st.breaker.state == CLOSED
    ensures acts[n].Report? && acts[n].o == OK && acts[n].g in ws[n + 1].h.ok
    ensures |ws[n + 1].h.ok| >= cfg.recoveryTarget
    ensures forall g :: g in ws[n + 1].h.ok ==> g.epoch == ws[n + 1].st.epoch && Done(ws[n + 1].st, g)
  {
    hide WorldOk, Next, Enabled;
    RunInvariant(cfg, ws, acts, n);
    RunInvariant(cfg, ws, acts, n + 1);
    var w, a := ws[n], acts[n];
    assert ws[n + 1] == Next(cfg, w, a);
    hide Run;
    OksAreDone(cfg, ws[n + 1]);
    if a.Report? {
      NextOfReport(cfg, w, a);
      ClosingReport(cfg, w, a.g, a.o, a.e, a.wr);
    } else {
      OnlyReportsClose(cfg, w, a);
    }
  }

  lemma RefreshNeverCloses(cfg: Config, s: State, e: Env)
    requires cfg.Valid()
    ensures Refresh(cfg, s, e).st.breaker.state == CLOSED ==> s.breaker.state == CLOSED
  {
    HeadFrames(cfg, s, e);
    var t := Steps(cfg, s, e).pruned;
    assert t.st.breaker.state == s.breaker.state;
    var t' := ProbePhase(cfg, t, e);
    assert EvictPhase(cfg, ReconcilePhase(CooldownPhase(t', e), e), e).st.breaker.state
        == CooldownPhase(t', e).st.breaker.state;
  }

  lemma OksAreDone(cfg: Config, w: World)
    requires WorldOk(cfg, w)
    ensures forall g :: g in w.h.ok ==> g.epoch == w.st.epoch && Done(w.st, g)
  {
    hide Inv, LocksOk, SlotWatched, QueueOk;
  }

  lemma OnlyReportsClose(cfg: Config, w: World, a: Action)
    requires cfg.Valid() && WorldOk(cfg, w) && Enabled(w, a) && !a.Report?
    ensures Next(cfg, w, a).st.breaker.state == CLOSED ==> w.st.breaker.state == CLOSED
  {
    hide Run, Inv, Agrees, Refresh, Poll, PrepareSend, Select, Register, Issue, TryGrant, ClockRule, ProbePhase,
      ReconcilePhase, EvictPhase, FinishReport, TxnOf, Evolves, SlotDiscipline, IssuedIds, HistoryOfRecord,
      HistoryOfRefresh;
    if a.Writes() {
      RefreshNeverCloses(cfg, w.st, a.e);
    }
    match a
    case PollOnce(r, e, budget, wr) =>
      assert Inv(cfg, w.st) by { WorldInv(cfg, w); }
      PollAfterRefresh(cfg, w.st, w.waiters[r].prio, r, w.waiters[r].anchor, e, budget);
    case Prepare(g, e, wr) => PrepareBreaker(Refresh(cfg, w.st, e), g);
    case _ =>
  }

  lemma PrepareBreaker(t: Txn, g: Gid)
    ensures var s' := PrepareSend(t, g).0.st;
            s'.breaker == t.st.breaker.(probe := s'.breaker.probe) && s'.epoch == t.st.epoch
  {
  }

  lemma ClosingReport(cfg: Config, w: World, g: Gid, o: Outcome, e: Env, wr: Write)
    requires cfg.Valid() && WorldOk(cfg, w)
    requires w.st.breaker.state != CLOSED && StepReport(cfg, w, g, o, e, wr).st.breaker.state == CLOSED
    ensures var h := StepReport(cfg, w, g, o, e, wr).h; o == OK && g in h.ok && |h.ok| >= cfg.recoveryTarget
  {
    var t := Refresh(cfg, w.st, e);
    var (t', result) := Record(cfg, t, g, o, e.wall);
    var h1 := HistoryOfRefresh(w.st, e, w.h);
    var h' := HistoryOfRecord(cfg, t.st, g, o, h1);
    RefreshNeverCloses(cfg, w.st, e);
    WorldInv(cfg, w);
    RefreshKeeps(cfg, w.st, e);
    AgreesRefresh(cfg, w.st, e, w.h);
    HistoryFrame(cfg, w, e);
    HistoryOfRecordFrame(cfg, t.st, g, o, h1);
    FinishReportHistory(w, t.st, t', result, h', g, o, e, wr);
    assert StepReport(cfg, w, g, o, e, wr).st == Commit(w.st, t', wr);
    hide Refresh, Inv, WorldOk, FinishReport;
    assert Shows(t', wr) && t'.st.breaker.state == CLOSED;
    ClosingRecord(cfg, t, g, o, e.wall, h1);
  }

  lemma ClosingRecord(cfg: Config, t: Txn, g: Gid, o: Outcome, wall: real, h: History)
    requires cfg.Valid() && Agrees(cfg, t.st, h)
    requires t.st.breaker.state != CLOSED && Record(cfg, t, g, o, wall).0.st.breaker.state == CLOSED
    ensures var h' := HistoryOfRecord(cfg, t.st, g, o, h); o == OK && g in h'.ok && |h'.ok| >= cfg.recoveryTarget
  {
    assert StreakOk(t.st, h.ok);
    assert Open(t.st, g);
    assert g !in h.ok;
  }

  /** While recovering the streak is the number of distinct ids of the epoch recorded OK; an open breaker has none. */
  lemma StreakCountsOks(cfg: Config, ws: seq<World>, acts: seq<Action>, n: nat)
    requires Run(cfg, ws, acts) && n < |ws|
    ensures ws[n].st.breaker.state == RECOVERY ==> ws[n].st.breaker.streak == |ws[n].h.ok|
    ensures ws[n].st.breaker.state == OPEN ==> ws[n].h.ok == {}
    ensures forall g :: g in ws[n].h.ok ==> g.epoch == ws[n].st.epoch
  {
    RunInvariant(cfg, ws, acts, n);
    hide Run, Inv;
  }

  /**
   * In recovery a report on an open grant of the epoch closes the breaker
   * exactly when it is an OK that brings the distinct OKs up to the target;
   * a neutral outcome takes nothing off the streak.
   */
  lemma RecoveryClosesAtTarget(cfg: Config, t: Txn, g: Gid, o: Outcome, wall: real, h: History)
    requires cfg.Valid() && Inv(cfg, t.st) && Agrees(cfg, t.st, h)
    requires t.st.breaker.state == RECOVERY && Open(t.st, g) && g.epoch == t.st.epoch
    ensures var b := Record(cfg, t, g, o, wall).0.st.breaker;
            && (b.state == CLOSED <==> o == OK && |h.ok + {g}| >= cfg.recoveryTarget)
            && (b.state == CLOSED ==> b.level == 0)
            && (o != OK && o != RATE_LIMIT ==> b.state == RECOVERY && b.streak == |h.ok|)
  {
    assert g !in h.ok;
    assert |h.ok + {g}| == |h.ok| + 1;
  }

  /** This step wrote the outcome OK of g, which was open until then, into a file that is now visible. */
  ghost predicate WritesOk(cfg: Config, w: World, a: Action, w': World, g: Gid)
    requires cfg.Valid()
  {
    && a.Report? && a.g == g && a.o == OK && a.wr != Lost
    && Open(Refresh(cfg, w.st, a.e).st, g)
    && Terminal(w'.st, g) && w'.st.grants[g].outcome == Some(OK)
  }

  /** The OK set is honest: each member was open, and written as OK, in an earlier step of the run. */
  lemma {:induction false} OksWereReported(cfg: Config, ws: seq<World>, acts: seq<Action>, n: nat, g: Gid)
    requires Run(cfg, ws, acts) && n < |ws| && g in ws[n].h.ok
    ensures exists i :: 0 <= i < n && WritesOk(cfg, ws[i], acts[i], ws[i + 1], g)
    decreases n
  {
    hide Next, Enabled, WorldOk, WritesOk;
    if n > 0 {
      var w, a := ws[n - 1], acts[n - 1];
      assert ws[n - 1 + 1] == Next(cfg, w, a);
      if g in w.h.ok {
        OksWereReported(cfg, ws, acts, n - 1, g);
      } else {
        RunInvariant(cfg, ws, acts, n - 1);
        NewOkIsWritten(cfg, w, a, g);
        assert WritesOk(cfg, ws[n - 1], acts[n - 1], ws[n - 1 + 1], g);
      }
    }
  }

  lemma NewOkIsWritten(cfg: Config, w: World, a: Action, g: Gid)
    requires cfg.Valid() && WorldOk(cfg, w) && Enabled(w, a)
    requires g in Next(cfg, w, a).h.ok && g !in w.h.ok
    ensures WritesOk(cfg, w, a, Next(cfg, w, a), g)
  {
    hide Next, Enabled, WorldOk, WritesOk;
    OksGrowByReports(cfg, w, a);
    NextOfReport(cfg, w, a);
    NewOkOfReport(cfg, w, g, a.o, a.e, a.wr);
  }

  lemma NextOfReport(cfg: Config, w: World, a: Action)
    requires cfg.Valid() && Enabled(w, a) && a.Report?
    ensures Next(cfg, w, a) == StepReport(cfg, w, a.g, a.o, a.e, a.wr)
  {
    hide Sound, StepPoll, StepReport, RunTxn;
  }

  lemma NewOkOfReport(cfg: Config, w: World, g: Gid, o: Outcome, e: Env, wr: Write)
    requires cfg.Valid() && WorldOk(cfg, w) && o == OK
    requires g in StepReport(cfg, w, g, o, e, wr).h.ok && g !in w.h.ok
    ensures WritesOk(cfg, w, Report(g, o, e, wr), StepReport(cfg, w, g, o, e, wr), g)
  {
    hide WorldOk, Inv, Evolves, Refresh, Record, HistoryOfRefresh, FinishReport;
    var t := Refresh(cfg, w.st, e);
    var (t', result) := Record(cfg, t, g, o, e.wall);
    var h1 := HistoryOfRefresh(w.st, e, w.h);
    var h' := HistoryOfRecord(cfg, t.st, g, o, h1);
    WorldInv(cfg, w);
    RefreshKeeps(cfg, w.st, e);
    RecordKeeps(cfg, t, g, o, e.wall);
    RefreshAddsNoOk(w.st, e, w.h);
    HistoryFrame(cfg, w, e);
    HistoryOfRecordFrame(cfg, t.st, g, o, h1);
    FinishReportHistory(w, t.st, t', result, h', g, o, e, wr);
    FinishReportState(w, t.st, t', result, h', g, o, e, wr);
  }

  lemma RefreshAddsNoOk(s: State, e: Env, h: History)
    ensures HistoryOfRefresh(s, e, h).ok <= h.ok
  {
  }

  lemma FinishReportState(w: World, s: State, t: Txn, result: RecordResult, h': History, g: Gid, o: Outcome,
                          e: Env, wr: Write)
    ensures FinishReport(w, s, t, result, h', g, o, e, wr).st == Commit(w.st, t, wr)
  {
  }

  lemma OksGrowByReports(cfg: Config, w: World, a: Action)
    requires cfg.Valid() && Enabled(w, a)
    ensures var ok := Next(cfg, w, a).h.ok;
            ok <= w.h.ok || (a.Report? && a.o == OK && ok <= w.h.ok + {a.g})
  {
    hide Run, WorldOk, Inv, Agrees, Refresh, Poll, Record, PrepareSend, Select, Register, Issue, TryGrant, ClockRule,
      ProbePhase, ReconcilePhase, EvictPhase, FinishPoll, FinishReport, TxnOf, Evolves, SlotDiscipline, IssuedIds,
      HistoryOfRecord;
    match a
    case PollOnce(r, e, budget, wr) =>
      FinishPollHistory(w, r, Poll(cfg, w.st, w.waiters[r].prio, r, w.waiters[r].anchor, e, budget), e, wr);
    case Report(g, o, e, wr) =>
      var t := Refresh(cfg, w.st, e);
      var (t', result) := Record(cfg, t, g, o, e.wall);
      var h1 := HistoryOfRefresh(w.st, e, w.h);
      HistoryFrame(cfg, w, e);
      HistoryOfRecordFrame(cfg, t.st, g, o, h1);
      FinishReportHistory(w, t.st, t', result, HistoryOfRecord(cfg, t.st, g, o, h1), g, o, e, wr);
    case _ =>
  }
}
