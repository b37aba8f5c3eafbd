/**
 * First come, first served inside a class: a waiter's place is fixed by its
 * first registration, through pruning, re-registration and renewal, and a
 * waiter that keeps polling is not pruned before its hard limit.
 */
module LimiterQueue {
  import opened Basics
  import opened LimiterConfig
  import opened LimiterState
  import opened LimiterSpec
  import opened LimiterInvariants
  import opened LimiterProtocol
  import opened LimiterHistory
  import opened LimiterWorld
  import opened LimiterSafety
  import opened LimiterFairness

  // -------------------------------------------------------------------- anchors

  /** One step: a waiter that stays keeps its class and, once set, its anchor; names are not reused. */
  lemma StepKeepsAnchor(cfg: Config, w: World, a: Action, r: Rid)
    requires cfg.Valid() && WorldOk(cfg, w) && Enabled(w, a) && r in w.used
    ensures var w' := Next(cfg, w, a);
            && r in w'.used
            && (r in w'.waiters ==>
                  && r in w.waiters && w'.waiters[r].prio == w.waiters[r].prio
                  && (w.waiters[r].anchor.Some? ==> w'.waiters[r].anchor == w.waiters[r].anchor))
  {
    hide Refresh, Poll, Record, PrepareSend, FinishPoll, FinishReport, HistoryOfRecord, Inv, Agrees, LocksOk,
      SlotWatched, Sound, Commit, CommitHistory, LocksAfterRefresh, Held, Terminals;
    match a
    case PollOnce(x, e, budget, wr) =>
      var wt := w.waiters[x];
      assert EntryOk(w.st.pending, x, wt);
      PollQueue(cfg, w.st, wt.prio, x, wt.anchor, e, budget);
      FinishPollWaiters(w, x, Poll(cfg, w.st, wt.prio, x, wt.anchor, e, budget), e, wr);
    case Report(g, o, e, wr) => ReportWaiters(cfg, w, g, o, e, wr);
    case _ =>
  }

  lemma ReportWaiters(cfg: Config, w: World, g: Gid, o: Outcome, e: Env, wr: Write)
    requires cfg.Valid()
    ensures var w' := StepReport(cfg, w, g, o, e, wr); w'.waiters == w.waiters && w'.used == w.used
  {
    hide Refresh, Record, HistoryOfRecord, HistoryOfRefresh;
  }

  lemma WaitersAreUsed(cfg: Config, w: World, r: Rid)
    requires WorldOk(cfg, w) && r in w.waiters
    ensures r in w.used
  {
  }

  /** From its first registration to its exit a waiter's anchor and class are fixed. */
  lemma {:induction false} AnchorIsFixed(cfg: Config, ws: seq<World>, acts: seq<Action>, i: nat, j: nat, r: Rid)
    requires Run(cfg, ws, acts) && i <= j < |ws| && r in ws[i].waiters && ws[i].waiters[r].anchor.Some?
    ensures r in ws[j].used
    ensures r in ws[j].waiters ==>
              ws[j].waiters[r].anchor == ws[i].waiters[r].anchor && ws[j].waiters[r].prio == ws[i].waiters[r].prio
    decreases j - i
  {
    hide Next, Enabled, WorldOk;
    RunInvariant(cfg, ws, acts, i);
    WaitersAreUsed(cfg, ws[i], r);
    if i < j {
      AnchorIsFixed(cfg, ws, acts, i, j - 1, r);
      RunInvariant(cfg, ws, acts, j - 1);
      assert ws[j - 1 + 1] == Next(cfg, ws[j - 1], acts[j - 1]);
      StepKeepsAnchor(cfg, ws[j - 1], acts[j - 1], r);
    }
  }

  /** Two queued waiters of a class never swap places. */
  lemma OrderIsFixed(cfg: Config, ws: seq<World>, acts: seq<Action>, i: nat, j: nat, r: Rid, x: Rid)
    requires Run(cfg, ws, acts) && i <= j < |ws|
    requires r in ws[i].waiters && x in ws[i].waiters && r in ws[i].st.pending && x in ws[i].st.pending
    requires r in ws[j].waiters && x in ws[j].waiters && r in ws[j].st.pending && x in ws[j].st.pending
    ensures ws[i].st.pending[r].registeredWall == ws[j].st.pending[r].registeredWall
    ensures Before(ws[i].st.pending[r], r, ws[i].st.pending[x], x)
        <==> Before(ws[j].st.pending[r], r, ws[j].st.pending[x], x)
  {
    hide Run, Inv, Agrees;
    RunInvariant(cfg, ws, acts, i);
    RunInvariant(cfg, ws, acts, j);
    assert EntryOk(ws[i].st.pending, r, ws[i].waiters[r]) && EntryOk(ws[i].st.pending, x, ws[i].waiters[x]);
    assert EntryOk(ws[j].st.pending, r, ws[j].waiters[r]) && EntryOk(ws[j].st.pending, x, ws[j].waiters[x]);
    AnchorIsFixed(cfg, ws, acts, i, j, r);
    AnchorIsFixed(cfg, ws, acts, i, j, x);
  }

  /** A grant goes to the earliest queued request of its class on the document it is selected from. */
  lemma GrantsAreFifo(cfg: Config, t: Txn, p: Prio, r: Rid, anchor: real, e: Env, budget: real, x: Rid)
    requires cfg.Valid() && Select(cfg, t, p, r, anchor, e, budget).result.Granted?
    requires x in t.st.pending && t.st.pending[x].prio == p && x != r
    ensures r in t.st.pending && t.st.pending[r].prio == p
    ensures || t.st.pending[r].registeredWall < t.st.pending[x].registeredWall
            || (t.st.pending[r].registeredWall == t.st.pending[x].registeredWall && r < x)
  {
    hide Select, Winner;
    GrantedIsWinner(cfg, t, p, r, anchor, e, budget);
    WinnerIsAHead(cfg, t.st, e.wall);
  }

  /** No queued demand outlives its registration by more than the hard limit. */
  lemma DemandsAreCapped(cfg: Config, ws: seq<World>, acts: seq<Action>, i: nat, r: Rid)
    requires Run(cfg, ws, acts) && i < |ws| && r in ws[i].st.pending
    ensures ws[i].st.pending[r].expireWall <= ws[i].st.pending[r].registeredWall + cfg.demandTtl
  {
    RunInvariant(cfg, ws, acts, i);
  }

  // ------------------------------------------------------------------- liveness

  /** How long a demand is safe after a poll at this wall: half a liveness window, within its hard limit. */
  function SafeUntil(cfg: Config, registered: real, wall: real): real {
    RMin(registered + cfg.demandTtl, wall + cfg.livenessTtl / 2.0)
  }

  /** A poll that keeps waiting leaves its demand queued with at least half a liveness window to go. */
  lemma PollRenews(cfg: Config, s: State, p: Prio, r: Rid, anchor: Option<real>, e: Env, budget: real)
    requires cfg.Valid() && EntryOk(s.pending, r, Waiter(p, e.pid, anchor))
    requires Poll(cfg, s, p, r, anchor, e, budget).result.KeepWaiting?
    ensures var q := Poll(cfg, s, p, r, anchor, e, budget);
            && r in q.t.st.pending && q.anchor.Some?
            && q.t.st.pending[r].registeredWall == q.anchor.value
            && q.t.st.pending[r].boot == e.boot && q.t.st.pending[r].pid == e.pid
            && q.t.st.pending[r].expireWall >= SafeUntil(cfg, q.anchor.value, e.wall)
  {
    var t := Refresh(cfg, s, e);
    RefreshFrames(cfg, s, e);
    if r in t.st.pending {
      KeptEntriesAreFresh(cfg, s, e, r);
    }
    hide Refresh, Select;
    match Register(cfg, t, p, r, anchor, e)
    case Full =>
    case Stale =>
    case Registered(t', a) =>
      RegisterRenews(cfg, t, p, r, anchor, e);
      WaitingLeavesQueue(cfg, t', p, r, a, e, budget);
  }

  lemma KeptEntriesAreFresh(cfg: Config, s: State, e: Env, r: Rid)
    requires cfg.Valid() && r in Refresh(cfg, s, e).st.pending
    ensures Refresh(cfg, s, e).st.pending[r].boot == e.boot
  {
    var k := Steps(cfg, s, e);
    ProbeFrames(cfg, k.pruned, e);
    TailFrames(cfg, k.probed, e);
    hide ProbePhase, CooldownPhase, ReconcilePhase, EvictPhase, ClockRule, DropLeaked;
    assert r in k.pruned.st.pending;
  }

  lemma RegisterRenews(cfg: Config, t: Txn, p: Prio, r: Rid, anchor: Option<real>, e: Env)
    requires cfg.Valid() && EntryOk(t.st.pending, r, Waiter(p, e.pid, anchor))
    requires r in t.st.pending ==> t.st.pending[r].boot == e.boot
    ensures var reg := Register(cfg, t, p, r, anchor, e);
            reg.Registered? ==>
              var d := reg.t.st.pending;
              && r in d && d[r].registeredWall == reg.anchor && d[r].boot == e.boot && d[r].pid == e.pid
              && d[r].expireWall >= SafeUntil(cfg, reg.anchor, e.wall)
  {
  }

  lemma WaitingLeavesQueue(cfg: Config, t: Txn, p: Prio, r: Rid, anchor: real, e: Env, budget: real)
    requires cfg.Valid() && Select(cfg, t, p, r, anchor, e, budget).result.KeepWaiting?
    ensures Select(cfg, t, p, r, anchor, e, budget) == Polled(t, KeepWaiting, Some(anchor))
  {
    if t.st.breaker.state != OPEN {
      match TryGrant(cfg, t.st, p, r, e)
      case NoGrant =>
      case Refused(_) =>
      case Issued(_, _) =>
    }
  }

  /** A live waiter's demand that has not lapsed is kept by every other process's transaction. */
  lemma OthersKeepDemand(cfg: Config, w: World, a: Action, r: Rid)
    requires cfg.Valid() && WorldOk(cfg, w) && Enabled(w, a)
    requires r in w.waiters && r in w.st.pending
    requires w.st.pending[r].boot == w.boot && w.st.pending[r].pid in w.live
    requires a.Writes() ==> a.e.wall <= w.st.pending[r].expireWall
    requires !(a.PollOnce? && a.r == r) && !(a.GiveUp? && a.r == r)
    ensures r in Next(cfg, w, a).st.pending && Next(cfg, w, a).st.pending[r] == w.st.pending[r]
  {
    hide Next, TxnOf, WorldOk, Refresh, Poll, Record, PrepareSend;
    NextDocument(cfg, w, a);
    if a.Writes() {
      assert !Lapsed(w.st.pending[r], a.e) && r !in a.e.leaked;
      RefreshKeepsDemand(cfg, w.st, a.e, r);
      TxnKeepsDemand(cfg, w, a, r);
    }
  }

  lemma RefreshKeepsDemand(cfg: Config, s: State, e: Env, r: Rid)
    requires cfg.Valid() && r in s.pending && !Lapsed(s.pending[r], e) && r !in e.leaked
    ensures r in Refresh(cfg, s, e).st.pending && Refresh(cfg, s, e).st.pending[r] == s.pending[r]
  {
    var k := Steps(cfg, s, e);
    assert k.clock.st.pending == s.pending - e.leaked;
    assert r in k.pruned.st.pending && k.pruned.st.pending[r] == s.pending[r];
    ProbeFrames(cfg, k.pruned, e);
    TailFrames(cfg, k.probed, e);
    hide ProbePhase, CooldownPhase, ReconcilePhase, EvictPhase, ClockRule, DropLeaked, PrunePending;
  }

  lemma TxnKeepsDemand(cfg: Config, w: World, a: Action, r: Rid)
    requires cfg.Valid() && Enabled(w, a) && a.Writes() && r in w.waiters
    requires r in Refresh(cfg, w.st, a.e).st.pending
    requires !(a.PollOnce? && a.r == r) && !(a.GiveUp? && a.r == r)
    ensures var t := Refresh(cfg, w.st, a.e).st.pending;
            r in TxnOf(cfg, w, a).st.pending && TxnOf(cfg, w, a).st.pending[r] == t[r]
  {
    hide Refresh, Poll, Record, PrepareSend;
    match a
    case PollOnce(x, e, budget, _) =>
      PollTouchesOwnEntry(cfg, w.st, w.waiters[x].prio, x, w.waiters[x].anchor, e, budget, r);
    case Prepare(g, e, _) => QueueUntouched(cfg, Refresh(cfg, w.st, e), g, OK, e.wall);
    case Report(g, o, e, _) => QueueUntouched(cfg, Refresh(cfg, w.st, e), g, o, e.wall);
    case _ =>
  }

  lemma QueueUntouched(cfg: Config, t: Txn, g: Gid, o: Outcome, wall: real)
    requires cfg.Valid()
    ensures PrepareSend(t, g).0.st.pending == t.st.pending && Record(cfg, t, g, o, wall).0.st.pending == t.st.pending
  {
  }

  lemma PollTouchesOwnEntry(cfg: Config, s: State, p: Prio, x: Rid, anchor: Option<real>, e: Env, budget: real, r: Rid)
    requires cfg.Valid() && x != r && r in Refresh(cfg, s, e).st.pending
    ensures var d := Poll(cfg, s, p, x, anchor, e, budget).t.st.pending;
            r in d && d[r] == Refresh(cfg, s, e).st.pending[r]
  {
    hide Run, Next, Enabled, WorldOk, Inv, Agrees, Refresh, Record, PrepareSend, Select, TxnOf, Evolves;
    var t := Refresh(cfg, s, e);
    hide Register;
    RegisterTouchesOwnEntry(cfg, t, p, x, anchor, e, r);
    match Register(cfg, t, p, x, anchor, e)
    case Full =>
    case Stale =>
    case Registered(t', a) => SelectQueue(cfg, t', p, x, a, e, budget);
  }

  lemma RegisterTouchesOwnEntry(cfg: Config, t: Txn, p: Prio, x: Rid, anchor: Option<real>, e: Env, r: Rid)
    requires x != r && r in t.st.pending
    ensures var reg := Register(cfg, t, p, x, anchor, e);
            reg.Registered? ==> r in reg.t.st.pending && reg.t.st.pending[r] == t.st.pending[r]
  {
  }

  /**
   * A waiter that polls again within half a liveness window, and within its
   * hard limit, finds its own entry where it left it: no other process's
   * transaction in between has pruned or moved it.
   */
  lemma {:induction false} PollingWaiterIsKept(cfg: Config, ws: seq<World>, acts: seq<Action>, i: nat, j: nat, r: Rid)
    requires Run(cfg, ws, acts) && i <= j < |ws|
    requires r in ws[i].waiters && r in ws[i].st.pending
    requires ws[i].st.pending[r].boot == ws[i].boot && ws[i].st.pending[r].pid == ws[i].waiters[r].pid
    requires forall k :: i <= k < j && acts[k].Writes() ==> acts[k].e.wall <= ws[i].st.pending[r].expireWall
    requires forall k :: i <= k <= j ==> r in ws[k].waiters
    requires forall k :: i <= k < j ==> !(acts[k].PollOnce? && acts[k].r == r)
    ensures r in ws[j].st.pending && ws[j].st.pending[r] == ws[i].st.pending[r]
    ensures ws[j].boot == ws[i].boot && ws[j].waiters[r].pid == ws[i].waiters[r].pid
    decreases j - i
  {
    hide Next, Enabled, WorldOk;
    if i < j {
      PollingWaiterIsKept(cfg, ws, acts, i, j - 1, r);
      var w, a := ws[j - 1], acts[j - 1];
      RunInvariant(cfg, ws, acts, j - 1);
      assert ws[j - 1 + 1] == Next(cfg, w, a);
      WaiterIsLive(cfg, w, r);
      StayingWaiter(cfg, w, a, r);
      OthersKeepDemand(cfg, w, a, r);
    }
  }

  /**
   * A waiter whose poll kept it waiting is still queued, at its own place,
   * whenever it looks again within half a liveness window and within its hard
   * limit, whatever the other processes did in between.
   */
  lemma WaiterSurvivesBetweenPolls(cfg: Config, ws: seq<World>, acts: seq<Action>, i: nat, j: nat, r: Rid)
    requires Run(cfg, ws, acts) && i < j < |ws| && acts[i].PollOnce? && acts[i].r == r
    requires forall k :: i <= k <= j ==> r in ws[k].waiters
    requires forall k :: i < k < j ==> !(acts[k].PollOnce? && acts[k].r == r)
    requires ws[i + 1].waiters[r].anchor.Some?
    requires forall k :: i < k < j && acts[k].Writes() ==>
               acts[k].e.wall <= SafeUntil(cfg, ws[i + 1].waiters[r].anchor.value, acts[i].e.wall)
    ensures r in ws[j].st.pending
    ensures ws[j].st.pending[r].registeredWall == ws[i + 1].waiters[r].anchor.value
  {
    hide Next, Enabled, WorldOk, SafeUntil;
    RunInvariant(cfg, ws, acts, i);
    assert ws[i + 1] == Next(cfg, ws[i], acts[i]);
    KeptWaiterIsQueued(cfg, ws[i], acts[i]);
    PollingWaiterIsKept(cfg, ws, acts, i + 1, j, r);
  }

  predicate PollOf(a: Action, r: Rid) { a.PollOnce? && a.r == r }

  /** Between i and k the waiter polled at p, and not again since. */
  predicate LatestPoll(acts: seq<Action>, i: nat, p: int, k: nat, r: Rid)
    requires k <= |acts|
  {
    i <= p < k && PollOf(acts[p], r) && forall m :: p < m < k ==> !PollOf(acts[m], r)
  }

  /**
   * From its poll at i up to j the waiter polls in time: every transaction of
   * anybody else comes within half a liveness window of the waiter's latest
   * poll, and within the waiter's hard limit.
   */
  ghost predicate PollsInTime(cfg: Config, acts: seq<Action>, i: nat, j: nat, r: Rid, anchor: real)
    requires j <= |acts|
  {
    forall p, k :: i < k < j && LatestPoll(acts, i, p, k, r) && acts[k].Writes() && !PollOf(acts[k], r) ==>
      acts[k].e.wall <= SafeUntil(cfg, anchor, acts[p].e.wall)
  }

  lemma {:induction false} LatestPollExists(acts: seq<Action>, i: nat, k: nat, r: Rid) returns (p: nat)
    requires i < k <= |acts| && PollOf(acts[i], r)
    ensures LatestPoll(acts, i, p, k, r)
    decreases k
  {
    if PollOf(acts[k - 1], r) {
      p := k - 1;
    } else {
      p := LatestPollExists(acts, i, k - 1, r);
    }
  }

  /**
   * A waiter that keeps polling in time keeps its place: it is queued at its
   * first registration in every world, over any number of polls and whatever
   * the other processes do. Its own polls may even come late.
   */
  lemma PollingWaiterKeepsItsPlace(cfg: Config, ws: seq<World>, acts: seq<Action>, i: nat, j: nat, r: Rid)
    requires Run(cfg, ws, acts) && i < j < |ws| && PollOf(acts[i], r)
    requires forall k :: i <= k <= j ==> r in ws[k].waiters
    requires ws[i + 1].waiters[r].anchor.Some?
    requires PollsInTime(cfg, acts, i, j, r, ws[i + 1].waiters[r].anchor.value)
    ensures forall k :: i < k <= j ==>
              r in ws[k].st.pending && ws[k].st.pending[r].registeredWall == ws[i + 1].waiters[r].anchor.value
  {
    hide Next, Enabled, PollOf, PollsInTime;
    forall k | i < k <= j
      ensures r in ws[k].st.pending && ws[k].st.pending[r].registeredWall == ws[i + 1].waiters[r].anchor.value
    {
      InTimeUpTo(cfg, acts, i, k, j, r, ws[i + 1].waiters[r].anchor.value);
      PlaceAt(cfg, ws, acts, i, k, r);
    }
  }

  lemma InTimeUpTo(cfg: Config, acts: seq<Action>, i: nat, k: nat, j: nat, r: Rid, anchor: real)
    requires k <= j <= |acts| && PollsInTime(cfg, acts, i, j, r, anchor)
    ensures PollsInTime(cfg, acts, i, k, r, anchor)
  {
    hide LatestPoll, SafeUntil, PollOf;
  }

  lemma PlaceAt(cfg: Config, ws: seq<World>, acts: seq<Action>, i: nat, j: nat, r: Rid)
    requires Run(cfg, ws, acts) && i < j < |ws| && PollOf(acts[i], r)
    requires forall k :: i <= k <= j ==> r in ws[k].waiters
    requires ws[i + 1].waiters[r].anchor.Some?
    requires PollsInTime(cfg, acts, i, j, r, ws[i + 1].waiters[r].anchor.value)
    ensures r in ws[j].st.pending && ws[j].st.pending[r].registeredWall == ws[i + 1].waiters[r].anchor.value
  {
    hide Next, Enabled, SafeUntil;
    var p := LatestPollExists(acts, i, j, r);
    AnchorIsFixed(cfg, ws, acts, i + 1, p + 1, r);
    forall k | p < k < j && acts[k].Writes()
      ensures acts[k].e.wall <= SafeUntil(cfg, ws[i + 1].waiters[r].anchor.value, acts[p].e.wall)
    {
      assert LatestPoll(acts, i, p, k, r) && !PollOf(acts[k], r);
    }
    hide PollsInTime;
    WaiterSurvivesBetweenPolls(cfg, ws, acts, p, j, r);
  }

  lemma KeptWaiterIsQueued(cfg: Config, w: World, a: Action)
    requires cfg.Valid() && WorldOk(cfg, w) && Enabled(w, a) && a.PollOnce? && a.r in Next(cfg, w, a).waiters
    ensures var w' := Next(cfg, w, a);
            && w'.waiters[a.r].anchor.Some? && a.r in w'.st.pending
            && w'.st.pending[a.r].boot == w'.boot && w'.st.pending[a.r].pid == w'.waiters[a.r].pid
            && w'.st.pending[a.r].registeredWall == w'.waiters[a.r].anchor.value
            && w'.st.pending[a.r].expireWall >= SafeUntil(cfg, w'.waiters[a.r].anchor.value, a.e.wall)
  {
    hide Poll, Refresh, Inv, Agrees, SafeUntil;
    var r, e, budget, wr := a.r, a.e, a.budget, a.wr;
    var wt := w.waiters[r];
    var q := Poll(cfg, w.st, wt.prio, r, wt.anchor, e, budget);
    assert EntryOk(w.st.pending, r, wt);
    assert q.result.KeepWaiting? && !Fails(q.t, wr);
    PollRenews(cfg, w.st, wt.prio, r, wt.anchor, e, budget);
    if !q.t.dirty {
      CleanPoll(cfg, w.st, wt.prio, r, wt.anchor, e, budget);
    }
  }

  lemma WaiterIsLive(cfg: Config, w: World, r: Rid)
    requires WorldOk(cfg, w) && r in w.waiters
    ensures w.waiters[r].pid in w.live
  {
  }

  /** A waiter that is still there has not given up, and there was no reboot. */
  lemma StayingWaiter(cfg: Config, w: World, a: Action, r: Rid)
    requires cfg.Valid() && WorldOk(cfg, w) && Enabled(w, a) && r in w.waiters && r in Next(cfg, w, a).waiters
    requires !(a.PollOnce? && a.r == r)
    ensures !(a.GiveUp? && a.r == r) && Next(cfg, w, a).boot == w.boot
    ensures Next(cfg, w, a).waiters[r] == w.waiters[r]
  {
    hide Run, WorldOk, Inv, Agrees, Refresh, Poll, Record, PrepareSend, Select, Register, Issue, TryGrant, ClockRule,
      ProbePhase, ReconcilePhase, EvictPhase, FinishPoll, FinishReport, TxnOf, Evolves, SlotDiscipline, IssuedIds,
      HistoryOfRecord, HistoryOfRefresh;
    WaitersAreUsed(cfg, w, r);
    match a
    case PollOnce(x, e, budget, wr) =>
      FinishPollWaiters(w, x, Poll(cfg, w.st, w.waiters[x].prio, x, w.waiters[x].anchor, e, budget), e, wr);
      FinishPollBoot(w, x, Poll(cfg, w.st, w.waiters[x].prio, x, w.waiters[x].anchor, e, budget), e, wr);
    case Report(g, o, e, wr) =>
      ReportWaiters(cfg, w, g, o, e, wr);
      ReportBoot(cfg, w, g, o, e, wr);
    case _ =>
  }

  lemma FinishPollBoot(w: World, r: Rid, q: Polled, e: Env, wr: Write)
    requires r in w.waiters
    ensures FinishPoll(w, r, q, e, wr).boot == w.boot
  {
  }

  lemma ReportBoot(cfg: Config, w: World, g: Gid, o: Outcome, e: Env, wr: Write)
    requires cfg.Valid()
    ensures StepReport(cfg, w, g, o, e, wr).boot == w.boot
  {
    hide Refresh, Record, HistoryOfRecord, HistoryOfRefresh;
  }
}
