/**
 * The invariant of every reachable world: document, history, witness locks
 * and waiters fit together, for any interleaving of any number of processes.
 */
module LimiterWorld {
  import opened Basics
  import opened LimiterConfig
  import opened LimiterState
  import opened LimiterSpec
  import opened LimiterInvariants
  import opened LimiterProtocol
  import opened LimiterHistory

  /** A held witness lock belongs to a live process, has its file, and names an issued grant. */
  predicate LocksOk(w: World) {
    forall g :: g in w.locks ==> g in w.files && w.locks[g] in w.live && g.num <= w.st.lastNum
  }

  /** Why the witness of a filled slot may be free. */
  predicate Excused(h: History, g: Gid) {
    g in h.crashed || g !in h.granted || g in h.limited
  }

  /** The slot's witness is held by the process that owns the probe, or there is a reason it is not. */
  predicate SlotWatched(w: World) {
    w.st.breaker.probe.Some? ==>
      var p := w.st.breaker.probe.value;
      if p.holder in w.locks then w.locks[p.holder] == p.pid && p.boot == w.boot else Excused(w.h, p.holder)
  }

  /** The queue entry of a waiter carries the waiter's own class, process and first-registration wall. */
  predicate EntryOk(pending: map<Rid, Demand>, r: Rid, wt: Waiter) {
    r in pending ==>
      wt.anchor == Some(pending[r].registeredWall) && wt.prio == pending[r].prio && wt.pid == pending[r].pid
  }

  predicate QueueOk(w: World) {
    && (forall r :: r in w.waiters ==> r in w.used && w.waiters[r].pid in w.live)
    && (forall r :: r in w.st.pending ==> r in w.used)
    && (forall r :: r in w.waiters ==> EntryOk(w.st.pending, r, w.waiters[r]))
  }

  ghost predicate WorldOk(cfg: Config, w: World) {
    Inv(cfg, w.st) && Agrees(cfg, w.st, w.h) && LocksOk(w) && SlotWatched(w) && QueueOk(w)
  }

  // ------------------------------------------------------ frames of a refresh

  /** A refresh only removes demands, keeps the slot's owner, and issues nothing. */
  predicate RefreshFrame(s: State, s': State, e: Env) {
    && (forall r :: r in s'.pending ==> r in s.pending && s'.pending[r] == s.pending[r])
    && s'.lastNum == s.lastNum && s'.totalGrants == s.totalGrants
    && (s'.breaker.probe.Some? ==>
          && s.breaker.probe.Some? && !HolderGone(s.breaker.probe.value, e)
          && s'.breaker.probe.value.holder == s.breaker.probe.value.holder
          && s'.breaker.probe.value.pid == s.breaker.probe.value.pid
          && s'.breaker.probe.value.boot == s.breaker.probe.value.boot)
  }

  lemma ProbeFrames(cfg: Config, t: Txn, e: Env)
    requires cfg.Valid()
    ensures var t' := ProbePhase(cfg, t, e); RefreshFrame(t.st, t'.st, e) && t'.st.pending == t.st.pending
  {
  }

  lemma TailFrames(cfg: Config, t: Txn, e: Env)
    ensures var s' := EvictPhase(cfg, ReconcilePhase(CooldownPhase(t, e), e), e).st;
            && s'.pending == t.st.pending && s'.lastNum == t.st.lastNum && s'.totalGrants == t.st.totalGrants
            && (s'.breaker.probe.Some? ==> s'.breaker.probe == t.st.breaker.probe)
  {
  }

  lemma HeadFrames(cfg: Config, s: State, e: Env)
    requires cfg.Valid()
    ensures var s' := Steps(cfg, s, e).pruned.st;
            && (forall r :: r in s'.pending ==> r in s.pending && s'.pending[r] == s.pending[r])
            && s'.lastNum == s.lastNum && s'.totalGrants == s.totalGrants && s'.epoch == s.epoch
            && s'.grants == s.grants && s'.breaker == s.breaker.(cooldownUntil := s'.breaker.cooldownUntil)
            && (s.breaker.state != OPEN ==> s'.breaker == s.breaker)
  {
    ClockFrames(cfg, DropLeaked(Txn(s, false), e), e);
    hide ClockRule, ProbePhase, CooldownPhase, ReconcilePhase, EvictPhase, Refresh;
    var t := ClockRule(cfg, DropLeaked(Txn(s, false), e), e);
    assert t.st.pending == s.pending - e.leaked;
  }

  /** The clock rule moves clock, bucket and an open breaker's cooldown, nothing else. */
  lemma ClockFrames(cfg: Config, t: Txn, e: Env)
    requires cfg.Valid()
    ensures var s, s' := t.st, ClockRule(cfg, t, e).st;
            && s'.pending == s.pending && s'.grants == s.grants
            && s'.lastNum == s.lastNum && s'.totalGrants == s.totalGrants && s'.epoch == s.epoch
            && s'.breaker == s.breaker.(cooldownUntil := s'.breaker.cooldownUntil)
            && (s.breaker.state != OPEN ==> s'.breaker == s.breaker)
  {
    hide Classify, Applied;
  }

  lemma RefreshFrames(cfg: Config, s: State, e: Env)
    requires cfg.Valid()
    ensures RefreshFrame(s, Refresh(cfg, s, e).st, e)
  {
    HeadFrames(cfg, s, e);
    var t := Steps(cfg, s, e).pruned;
    ProbeFrames(cfg, t, e);
    TailFrames(cfg, ProbePhase(cfg, t, e), e);
  }

  /** The fields an idle refresh may change without marking the document dirty. */
  function WithClock(s: State, t: State): State {
    s.(tokens := t.tokens, refillTotal := t.refillTotal, lastWall := t.lastWall, lastMono := t.lastMono)
  }

  /** A refresh that stays clean has changed nothing but the re-derivable clock fields. */
  lemma CleanRefresh(cfg: Config, s: State, e: Env)
    requires cfg.Valid() && !Refresh(cfg, s, e).dirty
    ensures Refresh(cfg, s, e).st == WithClock(s, Refresh(cfg, s, e).st)
  {
    var k := Steps(cfg, s, e);
    assert !k.reconciled.dirty && !k.cooled.dirty && !k.probed.dirty && !k.pruned.dirty && !k.clock.dirty && !k.leaked.dirty;
    assert forall r :: r in s.pending ==> r !in s.pending.Keys * e.leaked;
    assert k.leaked.st.pending == s.pending;
    assert k.clock.st == WithClock(s, k.clock.st);
    assert k.probed.st == k.clock.st && k.cooled.st == k.clock.st;
  }

  /** Sound witness answers never make a process drop a lock it holds for a filled slot. */
  lemma NothingUnlocked(w: World, e: Env)
    requires LocksOk(w) && SlotWatched(w) && Sound(w, e)
    ensures LocksAfterRefresh(w, e) == w.locks
  {
  }

  // --------------------------------------------------------------- transactions

  /** The part of the invariant that a transaction must re-establish, given its working copy. */
  lemma TxnKeepsDocument(cfg: Config, w: World, t: Txn, h': History, wr: Write, wall: real)
    requires Inv(cfg, w.st) && Agrees(cfg, w.st, w.h)
    requires Inv(cfg, t.st) && Agrees(cfg, t.st, h')
    ensures Inv(cfg, Commit(w.st, t, wr)) && Agrees(cfg, Commit(w.st, t, wr), CommitHistory(w.h, h', t, wr, wall))
  {
  }

  lemma HistoryFrame(cfg: Config, w: World, e: Env)
    ensures var h' := HistoryOfRefresh(w.st, e, w.h);
            h'.granted == w.h.granted && h'.crashed == w.h.crashed && h'.limited == w.h.limited
            && h'.applied == w.h.applied && h'.known == w.h.known
  {
  }

  /** Transactions that neither grant nor register: refresh, drop, prepare. */
  predicate Quiet(s: State, t: Txn) {
    && s.lastNum <= t.st.lastNum
    && (forall r :: r in t.st.pending ==> r in s.pending && t.st.pending[r] == s.pending[r])
    && (t.st.breaker.probe.Some? ==>
          && s.breaker.probe.Some?
          && t.st.breaker.probe.value.holder == s.breaker.probe.value.holder
          && t.st.breaker.probe.value.pid == s.breaker.probe.value.pid
          && t.st.breaker.probe.value.boot == s.breaker.probe.value.boot)
  }

  lemma QuietKeeps(cfg: Config, w: World, t: Txn, e: Env, wr: Write)
    requires cfg.Valid() && WorldOk(cfg, w) && Sound(w, e)
    requires Inv(cfg, t.st) && Agrees(cfg, t.st, HistoryOfRefresh(w.st, e, w.h)) && Quiet(w.st, t)
    ensures WorldOk(cfg, RunTxn(w, t, HistoryOfRefresh(w.st, e, w.h), e, wr))
  {
    hide Inv, Agrees, Refresh, Poll, Record, PrepareSend, Select, Evolves;
    var h' := HistoryOfRefresh(w.st, e, w.h);
    var w' := RunTxn(w, t, h', e, wr);
    TxnKeepsDocument(cfg, w, t, h', wr, e.wall);
    NothingUnlocked(w, e);
    HistoryFrame(cfg, w, e);
  }

  lemma DropStep(cfg: Config, w: World, r: Rid, e: Env, wr: Write)
    requires cfg.Valid() && WorldOk(cfg, w) && Sound(w, e)
    ensures WorldOk(cfg, RunTxn(w, Drop(Refresh(cfg, w.st, e), r), HistoryOfRefresh(w.st, e, w.h), e, wr))
  {
    hide Refresh, RunTxn, HistoryOfRefresh, Inv, Agrees, Evolves, LocksOk, SlotWatched, QueueOk, Sound;
    var t := Refresh(cfg, w.st, e);
    RefreshKeeps(cfg, w.st, e);
    RefreshFrames(cfg, w.st, e);
    AgreesRefresh(cfg, w.st, e, w.h);
    DropKeeps(cfg, t, r);
    AgreesPending(cfg, t.st, Drop(t, r).st.pending, HistoryOfRefresh(w.st, e, w.h));
    QuietKeeps(cfg, w, Drop(t, r), e, wr);
  }

  lemma MaintainStep(cfg: Config, w: World, e: Env, wr: Write)
    requires cfg.Valid() && WorldOk(cfg, w) && Sound(w, e)
    ensures WorldOk(cfg, RunTxn(w, Refresh(cfg, w.st, e), HistoryOfRefresh(w.st, e, w.h), e, wr))
  {
    hide Refresh, RunTxn, HistoryOfRefresh, Inv, Agrees, Evolves, LocksOk, SlotWatched, QueueOk, Sound;
    RefreshKeeps(cfg, w.st, e);
    RefreshFrames(cfg, w.st, e);
    AgreesRefresh(cfg, w.st, e, w.h);
    QuietKeeps(cfg, w, Refresh(cfg, w.st, e), e, wr);
  }

  lemma PrepareStep(cfg: Config, w: World, g: Gid, e: Env, wr: Write)
    requires cfg.Valid() && WorldOk(cfg, w) && Sound(w, e)
    ensures WorldOk(cfg, RunTxn(w, PrepareSend(Refresh(cfg, w.st, e), g).0, HistoryOfRefresh(w.st, e, w.h), e, wr))
  {
    hide Refresh, PrepareSend, RunTxn, HistoryOfRefresh, Inv, Agrees, Evolves, LocksOk, SlotWatched, QueueOk, Sound;
    var t := Refresh(cfg, w.st, e);
    RefreshKeeps(cfg, w.st, e);
    RefreshFrames(cfg, w.st, e);
    AgreesRefresh(cfg, w.st, e, w.h);
    PrepareKeeps(cfg, t, g);
    AgreesPrepare(cfg, t, g, HistoryOfRefresh(w.st, e, w.h));
    PrepareFrame(t, g);
    QuietKeeps(cfg, w, PrepareSend(t, g).0, e, wr);
  }

  lemma PrepareFrame(t: Txn, g: Gid)
    ensures Quiet(t.st, PrepareSend(t, g).0) && PrepareSend(t, g).0.st.lastNum == t.st.lastNum
  {
  }

  // ---------------------------------------------------------------------- poll

  /** A poll's queue: entries of others only disappear, its own carries the anchor it returns. */
  lemma PollQueue(cfg: Config, s: State, p: Prio, r: Rid, anchor: Option<real>, e: Env, budget: real)
    requires cfg.Valid() && EntryOk(s.pending, r, Waiter(p, e.pid, anchor))
    ensures var q := Poll(cfg, s, p, r, anchor, e, budget);
            && (forall x :: x in q.t.st.pending && x != r ==> x in s.pending && q.t.st.pending[x] == s.pending[x])
            && EntryOk(q.t.st.pending, r, Waiter(p, e.pid, q.anchor))
            && (anchor.Some? ==> q.anchor == anchor)
            && (!q.result.Raised? && !q.result.DemandExpired? ==> q.anchor.Some?)
            && (q.result.Granted? || q.result.BreakerIsOpen? || q.result.CooldownExceedsDeadline? || q.result.DemandExpired? ==>
                  r !in q.t.st.pending)
  {
    hide Run, Next, Enabled, WorldOk, Inv, Agrees, Refresh, Record, PrepareSend, Register, Issue, TryGrant,
      ClockRule, ProbePhase, ReconcilePhase, EvictPhase, FinishPoll, FinishReport, Evolves, SlotDiscipline,
      IssuedIds, HistoryOfRecord, HistoryOfRefresh, RunTxn;
    RefreshFrames(cfg, s, e);
    var t := Refresh(cfg, s, e);
    match Register(cfg, t, p, r, anchor, e)
    case Full =>
    case Stale =>
    case Registered(t', a) =>
      RegisterQueue(cfg, t, p, r, anchor, e);
      SelectQueue(cfg, t', p, r, a, e, budget);
  }

  lemma RegisterQueue(cfg: Config, t: Txn, p: Prio, r: Rid, anchor: Option<real>, e: Env)
    requires EntryOk(t.st.pending, r, Waiter(p, e.pid, anchor))
    ensures var reg := Register(cfg, t, p, r, anchor, e);
            reg.Registered? ==>
              && (forall x :: x in reg.t.st.pending && x != r ==> x in t.st.pending && reg.t.st.pending[x] == t.st.pending[x])
              && EntryOk(reg.t.st.pending, r, Waiter(p, e.pid, Some(reg.anchor)))
              && (anchor.Some? ==> Some(reg.anchor) == anchor)
  {
  }

  lemma SelectQueue(cfg: Config, t: Txn, p: Prio, r: Rid, anchor: real, e: Env, budget: real)
    requires cfg.Valid()
    ensures var q := Select(cfg, t, p, r, anchor, e, budget);
            && (q.t.st.pending == t.st.pending || q.t.st.pending == t.st.pending - {r})
            && (q.result.Granted? || q.result.BreakerIsOpen? || q.result.CooldownExceedsDeadline? ==>
                  r !in q.t.st.pending)
            && q.anchor == Some(anchor)
  {
    if t.st.breaker.state != OPEN {
      match TryGrant(cfg, t.st, p, r, e)
      case NoGrant =>
      case Refused(_) =>
      case Issued(_, _) =>
        assert Select(cfg, t, p, r, anchor, e, budget).t.st.pending == t.st.pending - {r};
    }
  }

  /** A poll that stays clean leaves the queue and the anchor as they were. */
  lemma CleanPoll(cfg: Config, s: State, p: Prio, r: Rid, anchor: Option<real>, e: Env, budget: real)
    requires cfg.Valid()
    requires !Poll(cfg, s, p, r, anchor, e, budget).t.dirty
    ensures var q := Poll(cfg, s, p, r, anchor, e, budget);
            q.t.st == WithClock(s, q.t.st) && q.anchor == anchor && !q.result.Granted?
  {
    hide Refresh, Select;
    var t := Refresh(cfg, s, e);
    match Register(cfg, t, p, r, anchor, e)
    case Full => CleanRefresh(cfg, s, e);
    case Stale => CleanRefresh(cfg, s, e);
    case Registered(t', a) =>
      CleanSelect(cfg, t', p, r, a, e, budget);
      assert t' == t && anchor == Some(a);
      CleanRefresh(cfg, s, e);
  }

  lemma CleanSelect(cfg: Config, t: Txn, p: Prio, r: Rid, anchor: real, e: Env, budget: real)
    requires cfg.Valid() && !Select(cfg, t, p, r, anchor, e, budget).t.dirty
    ensures var q := Select(cfg, t, p, r, anchor, e, budget);
            q.t == t && q.anchor == Some(anchor) && !q.result.Granted?
  {
    if t.st.breaker.state != OPEN {
      match TryGrant(cfg, t.st, p, r, e)
      case NoGrant =>
      case Refused(_) =>
      case Issued(_, _) =>
    }
  }

  /** Everything the invariant needs to know about one poll of waiter r. */
  ghost predicate PollFacts(cfg: Config, w: World, r: Rid, q: Polled, e: Env)
    requires r in w.waiters
  {
    var wt := w.waiters[r];
    var s := w.st;
    var s' := q.t.st;
    && Inv(cfg, s') && Agrees(cfg, s', HistoryOfRefresh(s, e, w.h)) && s.lastNum <= s'.lastNum
    && (forall x :: x in s'.pending && x != r ==> x in s.pending && s'.pending[x] == s.pending[x])
    && EntryOk(s'.pending, r, Waiter(wt.prio, e.pid, q.anchor))
    && (!q.t.dirty ==> q.anchor == wt.anchor)
    && (q.result.Granted? ==>
          q.t.dirty && q.result.gid.num == s.lastNum + 1 == s'.lastNum && s'.totalGrants == s.totalGrants + 1)
    && (s'.breaker.probe.Some? ==>
          var b := s'.breaker.probe.value;
          if q.result.Granted? && q.result.probe then
            b.holder == q.result.gid && b.pid == e.pid && b.boot == e.boot
          else
            s.breaker.probe.Some? && b.holder == s.breaker.probe.value.holder
            && b.pid == s.breaker.probe.value.pid && b.boot == s.breaker.probe.value.boot)
  }

  lemma PollHasFacts(cfg: Config, w: World, r: Rid, e: Env, budget: real)
    requires cfg.Valid() && WorldOk(cfg, w) && r in w.waiters && e.pid == w.waiters[r].pid
    ensures PollFacts(cfg, w, r, Poll(cfg, w.st, w.waiters[r].prio, r, w.waiters[r].anchor, e, budget), e)
  {
    hide Run, Next, Enabled, Agrees, Refresh, Poll, Record, PrepareSend, Select, Evolves;
    var wt := w.waiters[r];
    var q := Poll(cfg, w.st, wt.prio, r, wt.anchor, e, budget);
    PollKeeps(cfg, w.st, wt.prio, r, wt.anchor, e, budget);
    AgreesPoll(cfg, w.st, wt.prio, r, wt.anchor, e, budget, w.h);
    assert EntryOk(w.st.pending, r, wt);
    PollQueue(cfg, w.st, wt.prio, r, wt.anchor, e, budget);
    PollAfterRefresh(cfg, w.st, wt.prio, r, wt.anchor, e, budget);
    RefreshFrames(cfg, w.st, e);
    if !q.t.dirty {
      CleanPoll(cfg, w.st, wt.prio, r, wt.anchor, e, budget);
    }
    hide Inv;
  }

  /** Document, history and locks right after a poll's transaction. */
  lemma FinishPollDocument(cfg: Config, w: World, r: Rid, q: Polled, e: Env, wr: Write)
    requires WorldOk(cfg, w) && r in w.waiters && Sound(w, e) && PollFacts(cfg, w, r, q, e)
    ensures var w' := FinishPoll(w, r, q, e, wr); Inv(cfg, w'.st) && Agrees(cfg, w'.st, w'.h)
  {
    hide Run, Next, Enabled, Inv, Refresh, Poll, Record, PrepareSend, Select, Evolves;
    var h' := HistoryOfRefresh(w.st, e, w.h);
    TxnKeepsDocument(cfg, w, q.t, h', wr, e.wall);
    HistoryFrame(cfg, w, e);
    var v := RunTxn(w, q.t, h', e, wr);
    if q.result.Granted? && !Fails(q.t, wr) {
      AgreesGranted(cfg, w.st, v.st, v.h, q.result.gid);
    }
  }

  /** A poll moves its own waiter only, and only by the anchor it returns. */
  lemma FinishPollWaiters(w: World, r: Rid, q: Polled, e: Env, wr: Write)
    requires r in w.waiters
    ensures var w' := FinishPoll(w, r, q, e, wr);
            && w'.waiters.Keys <= w.waiters.Keys && w'.used == w.used && w'.live == w.live
            && w'.st == Commit(w.st, q.t, wr)
            && (forall x :: x in w'.waiters && x != r ==> w'.waiters[x] == w.waiters[x])
            && (r in w'.waiters ==> w'.waiters[r] == w.waiters[r].(anchor := q.anchor) && !Fails(q.t, wr))
  {
    hide CommitHistory, HistoryOfRefresh, LocksAfterRefresh;
  }

  lemma FinishPollQueue(cfg: Config, w: World, r: Rid, q: Polled, e: Env, wr: Write)
    requires WorldOk(cfg, w) && r in w.waiters && e.pid == w.waiters[r].pid && PollFacts(cfg, w, r, q, e)
    ensures QueueOk(FinishPoll(w, r, q, e, wr))
  {
    hide Inv, Agrees, LocksOk, SlotWatched, FinishPoll;
    FinishPollWaiters(w, r, q, e, wr);
    var w' := FinishPoll(w, r, q, e, wr);
    forall x | x in w'.waiters
      ensures EntryOk(w'.st.pending, x, w'.waiters[x])
    {
      assert EntryOk(w.st.pending, x, w.waiters[x]);
    }
  }

  lemma FinishPollLocks(cfg: Config, w: World, r: Rid, q: Polled, e: Env, wr: Write)
    requires LocksOk(w) && SlotWatched(w) && r in w.waiters && Sound(w, e) && PollFacts(cfg, w, r, q, e)
    ensures LocksOk(FinishPoll(w, r, q, e, wr))
  {
    hide Run, Next, Enabled, WorldOk, Inv, Agrees, Refresh, Poll, Record, PrepareSend, Select, Evolves;
    NothingUnlocked(w, e);
  }

  lemma FinishPollSlot(cfg: Config, w: World, r: Rid, q: Polled, e: Env, wr: Write)
    requires LocksOk(w) && SlotWatched(w) && GrantedOk(w.st, w.h.granted)
    requires w.st.breaker.probe.Some? ==> w.st.breaker.probe.value.holder.num <= w.st.lastNum
    requires r in w.waiters && Sound(w, e) && PollFacts(cfg, w, r, q, e)
    ensures SlotWatched(FinishPoll(w, r, q, e, wr))
  {
    hide Inv, Agrees, EntryOk, HistoryOfRefresh, LocksAfterRefresh;
    NothingUnlocked(w, e);
    HistoryFrame(cfg, w, e);
    var w' := FinishPoll(w, r, q, e, wr);
    if w'.st.breaker.probe.Some? && Shows(q.t, wr) && q.result.Granted? && q.result.probe {
      assert q.result.gid !in w.locks && q.result.gid !in w.h.granted;
    }
  }

  lemma PollStep(cfg: Config, w: World, r: Rid, e: Env, budget: real, wr: Write)
    requires cfg.Valid() && WorldOk(cfg, w) && Enabled(w, PollOnce(r, e, budget, wr))
    ensures WorldOk(cfg, StepPoll(cfg, w, r, e, budget, wr))
  {
    hide Run, Next, Refresh, Poll, Record, PrepareSend, Select, Evolves;
    var q := Poll(cfg, w.st, w.waiters[r].prio, r, w.waiters[r].anchor, e, budget);
    PollHasFacts(cfg, w, r, e, budget);
    FinishPollDocument(cfg, w, r, q, e, wr);
    FinishPollQueue(cfg, w, r, q, e, wr);
    FinishPollLocks(cfg, w, r, q, e, wr);
    FinishPollSlot(cfg, w, r, q, e, wr);
    hide FinishPoll, PollFacts;
  }

  /** Returning one fresh id keeps the grant count honest. */
  lemma AgreesGranted(cfg: Config, s: State, s': State, h: History, g: Gid)
    requires Agrees(cfg, s', h) && GrantedOk(s, h.granted)
    requires s'.totalGrants == s.totalGrants + 1 && g.num == s.lastNum + 1 == s'.lastNum
    ensures Agrees(cfg, s', h.(granted := h.granted + {g}))
  {
  }

  // -------------------------------------------------------------------- report

  /** Everything the invariant needs to know about one report, on the refreshed document s. */
  ghost predicate ReportFacts(cfg: Config, w: World, s: State, t: Txn, result: RecordResult, h': History, g: Gid, e: Env)
  {
    && Inv(cfg, t.st) && Agrees(cfg, t.st, h') && RefreshFrame(w.st, s, e)
    && t.st.pending == s.pending && t.st.lastNum == s.lastNum
    && (t.st.breaker.probe.Some? ==> t.st.breaker.probe == s.breaker.probe)
    && h'.granted == w.h.granted && h'.crashed == w.h.crashed && h'.limited == w.h.limited
    && h'.applied == w.h.applied
    && !Open(t.st, g) && (!t.dirty ==> !Open(w.st, g))
    && (result == APPLIED ==> t.dirty && Terminal(t.st, g))
  }

  lemma RecordTouches(cfg: Config, t: Txn, g: Gid, o: Outcome, wall: real)
    requires cfg.Valid()
    ensures var (t', result) := Record(cfg, t, g, o, wall);
            && t'.st.pending == t.st.pending && t'.st.lastNum == t.st.lastNum
            && (t'.st.breaker.probe.Some? ==> t'.st.breaker.probe == t.st.breaker.probe)
            && !Open(t'.st, g)
            && (!t'.dirty ==> !t.dirty && t'.st == t.st)
            && (result == APPLIED ==> t'.dirty && Terminal(t'.st, g))
  {
  }

  lemma HistoryTouches(cfg: Config, s: State, g: Gid, o: Outcome, h: History)
    ensures var h' := HistoryOfRecord(cfg, s, g, o, h);
            h'.granted == h.granted && h'.crashed == h.crashed && h'.limited == h.limited && h'.applied == h.applied
  {
  }

  lemma RecordFrame(cfg: Config, t: Txn, g: Gid, o: Outcome, wall: real, h: History)
    requires cfg.Valid()
    ensures var (t', result) := Record(cfg, t, g, o, wall);
            var h' := HistoryOfRecord(cfg, t.st, g, o, h);
            && t'.st.pending == t.st.pending && t'.st.lastNum == t.st.lastNum
            && (t'.st.breaker.probe.Some? ==> t'.st.breaker.probe == t.st.breaker.probe)
            && h'.granted == h.granted && h'.crashed == h.crashed && h'.limited == h.limited && h'.applied == h.applied
            && !Open(t'.st, g)
            && (!t'.dirty ==> !t.dirty && t'.st == t.st)
            && (result == APPLIED ==> t'.dirty && Terminal(t'.st, g))
  {
    hide Record, HistoryOfRecord;
    RecordTouches(cfg, t, g, o, wall);
    HistoryTouches(cfg, t.st, g, o, h);
  }

  lemma ReportHasFacts(cfg: Config, w: World, g: Gid, o: Outcome, e: Env)
    requires cfg.Valid() && WorldOk(cfg, w)
    ensures var t := Refresh(cfg, w.st, e);
            var (t', result) := Record(cfg, t, g, o, e.wall);
            var h' := HistoryOfRecord(cfg, t.st, g, o, HistoryOfRefresh(w.st, e, w.h));
            ReportFacts(cfg, w, t.st, t', result, h', g, e)
  {
    var t := Refresh(cfg, w.st, e);
    var h1 := HistoryOfRefresh(w.st, e, w.h);
    RefreshKeeps(cfg, w.st, e);
    RefreshFrames(cfg, w.st, e);
    AgreesRefresh(cfg, w.st, e, w.h);
    HistoryFrame(cfg, w, e);
    RecordKeeps(cfg, t, g, o, e.wall);
    RecordFrame(cfg, t, g, o, e.wall, h1);
    AgreesRecord(cfg, t, g, o, e.wall, h1);
    if !t.dirty {
      CleanRefresh(cfg, w.st, e);
    }
    hide Refresh, Record, HistoryOfRecord, HistoryOfRefresh, Inv, Agrees;
  }

  lemma FinishReportDocument(cfg: Config, w: World, s: State, t: Txn, result: RecordResult, h': History,
                             g: Gid, o: Outcome, e: Env, wr: Write)
    requires WorldOk(cfg, w) && ReportFacts(cfg, w, s, t, result, h', g, e)
    ensures var w' := FinishReport(w, s, t, result, h', g, o, e, wr); Inv(cfg, w'.st) && Agrees(cfg, w'.st, w'.h)
  {
    hide Inv, Agrees, Evolves, LocksOk, SlotWatched, QueueOk, RefreshFrame, LetsGo, Unlock, LocksAfterRefresh;
    TxnKeepsDocument(cfg, w, t, h', wr, e.wall);
    var w' := FinishReport(w, s, t, result, h', g, o, e, wr);
    var h := CommitHistory(w.h, h', t, wr, e.wall);
    assert g in w'.h.applied ==> Done(w'.st, g) by {
      ReportedIsDone(cfg, w, s, t, result, h', g, e, wr);
    }
    AgreesReported(cfg, w'.st, h, w'.h.limited, w'.h.applied, g);
  }

  lemma ReportedIsDone(cfg: Config, w: World, s: State, t: Txn, result: RecordResult, h': History,
                       g: Gid, e: Env, wr: Write)
    requires WorldOk(cfg, w) && ReportFacts(cfg, w, s, t, result, h', g, e)
    ensures g in w.h.applied || (result == APPLIED && !Fails(t, wr)) ==> Done(Commit(w.st, t, wr), g)
  {
    hide LocksOk, SlotWatched, QueueOk, RefreshFrame, TripsOk, ClosersOk, StreakOk, LevelOk, GrantedOk, SlotDiscipline,
      Accounts, DemandsCapped, BreakerShape;
  }

  /** The early releases are no part of the agreement, and a terminal id may be counted as applied. */
  lemma AgreesReported(cfg: Config, s: State, h: History, limited: set<Gid>, applied: set<Gid>, g: Gid)
    requires Agrees(cfg, s, h) && h.applied <= applied <= h.applied + {g} && (g in applied ==> Done(s, g))
    ensures Agrees(cfg, s, h.(limited := limited, applied := applied))
  {
    hide TripsOk, StreakOk, LevelOk, GrantedOk;
  }

  lemma FinishReportLocks(cfg: Config, w: World, s: State, t: Txn, result: RecordResult, h': History,
                          g: Gid, o: Outcome, e: Env, wr: Write)
    requires WorldOk(cfg, w) && Sound(w, e) && ReportFacts(cfg, w, s, t, result, h', g, e)
    ensures var w' := FinishReport(w, s, t, result, h', g, o, e, wr); LocksOk(w') && QueueOk(w')
  {
    hide Run, Next, Enabled, Inv, Agrees, Refresh, Poll, Record, PrepareSend, Select, Register, Issue, TryGrant,
      ClockRule, ProbePhase, ReconcilePhase, EvictPhase, FinishPoll, Evolves, SlotDiscipline, IssuedIds,
      HistoryOfRecord, HistoryOfRefresh;
    NothingUnlocked(w, e);
    hide SlotWatched;
  }

  lemma FinishReportSlot(cfg: Config, w: World, s: State, t: Txn, result: RecordResult, h': History,
                         g: Gid, o: Outcome, e: Env, wr: Write)
    requires LocksOk(w) && SlotWatched(w) && SlotDiscipline(w.st)
    requires Sound(w, e) && ReportFacts(cfg, w, s, t, result, h', g, e)
    ensures SlotWatched(FinishReport(w, s, t, result, h', g, o, e, wr))
  {
    hide Run, Next, Enabled, WorldOk, Refresh, Poll, Record, PrepareSend, Select, Register, Issue, TryGrant,
      ClockRule, ProbePhase, ReconcilePhase, EvictPhase, FinishPoll, Evolves, IssuedIds, HistoryOfRecord,
      HistoryOfRefresh;
    NothingUnlocked(w, e);
    assert SlotDiscipline(t.st);
    hide Inv, Agrees;
    var w' := FinishReport(w, s, t, result, h', g, o, e, wr);
    if w'.st.breaker.probe.Some? {
      assert w.st.breaker.probe.Some?;
      assert w'.st.breaker.probe.value.holder == w.st.breaker.probe.value.holder;
      assert Open(w'.st, w'.st.breaker.probe.value.holder);
    }
  }

  lemma ReportStep(cfg: Config, w: World, g: Gid, o: Outcome, e: Env, wr: Write)
    requires cfg.Valid() && WorldOk(cfg, w) && Sound(w, e)
    ensures WorldOk(cfg, StepReport(cfg, w, g, o, e, wr))
  {
    var t := Refresh(cfg, w.st, e);
    var (t', result) := Record(cfg, t, g, o, e.wall);
    var h' := HistoryOfRecord(cfg, t.st, g, o, HistoryOfRefresh(w.st, e, w.h));
    ReportHasFacts(cfg, w, g, o, e);
    FinishReportDocument(cfg, w, t.st, t', result, h', g, o, e, wr);
    FinishReportLocks(cfg, w, t.st, t', result, h', g, o, e, wr);
    FinishReportSlot(cfg, w, t.st, t', result, h', g, o, e, wr);
    hide Refresh, Record, HistoryOfRecord, HistoryOfRefresh, FinishReport, ReportFacts;
  }

  // ------------------------------------------------------------------ all steps

  lemma ProcessHistory(cfg: Config, w: World, a: Action)
    requires cfg.Valid() && IssuedIds(w.st) && Agrees(cfg, w.st, w.h) && Enabled(w, a) && !a.Writes()
    ensures Next(cfg, w, a).st == w.st && Agrees(cfg, w.st, Next(cfg, w, a).h)
  {
    hide RunTxn, StepPoll, StepReport, Refresh, Drop, PrepareSend, HistoryOfRefresh, Held, Without, TripsOk, StreakOk,
      LevelOk, GrantedOk, Sound;
  }

  lemma ProcessLocks(cfg: Config, w: World, a: Action)
    requires cfg.Valid() && LocksOk(w) && SlotWatched(w) && Enabled(w, a) && !a.Writes()
    ensures LocksOk(Next(cfg, w, a)) && SlotWatched(Next(cfg, w, a))
  {
    hide RunTxn, StepPoll, StepReport, Refresh, Drop, PrepareSend, HistoryOfRefresh, Without, Terminals, Sound;
  }

  lemma ProcessQueue(cfg: Config, w: World, a: Action)
    requires cfg.Valid() && QueueOk(w) && Enabled(w, a) && !a.Writes()
    ensures QueueOk(Next(cfg, w, a))
  {
    hide RunTxn, StepPoll, StepReport, Refresh, Drop, PrepareSend, HistoryOfRefresh, Held, Terminals, Sound;
    var w' := Next(cfg, w, a);
    assert w'.st == w.st;
    if a.Enter? {
      assert a.r !in w.st.pending && EntryOk(w.st.pending, a.r, Waiter(a.prio, a.p, None));
    }
    assert forall r :: r in w'.waiters && r in w.waiters && (a.Enter? ==> r != a.r) ==> w'.waiters[r] == w.waiters[r];
  }

  lemma ProcessSteps(cfg: Config, w: World, a: Action)
    requires cfg.Valid() && WorldOk(cfg, w) && Enabled(w, a) && !a.Writes()
    ensures WorldOk(cfg, Next(cfg, w, a))
  {
    hide Next, Enabled, Accounts, IssuedIds, SlotDiscipline, DemandsCapped, Agrees, LocksOk, SlotWatched, QueueOk;
    ProcessHistory(cfg, w, a);
    ProcessLocks(cfg, w, a);
    ProcessQueue(cfg, w, a);
  }

  lemma StepKeeps(cfg: Config, w: World, a: Action)
    requires cfg.Valid() && WorldOk(cfg, w) && Enabled(w, a)
    ensures WorldOk(cfg, Next(cfg, w, a))
  {
    hide WorldOk, Inv, Agrees, Refresh, Poll, Record, PrepareSend, Select, Register, Issue, TryGrant, ClockRule,
      ProbePhase, ReconcilePhase, EvictPhase, FinishPoll, FinishReport, Evolves, SlotDiscipline, IssuedIds,
      HistoryOfRecord, HistoryOfRefresh;
    match a
    case PollOnce(r, e, budget, wr) => PollStep(cfg, w, r, e, budget, wr);
    case GiveUp(r, e, wr) =>
      DropStep(cfg, w, r, e, wr);
      ForgetWaiter(cfg, RunTxn(w, Drop(Refresh(cfg, w.st, e), r), HistoryOfRefresh(w.st, e, w.h), e, wr), r);
    case DropDemand(r, e, wr) => DropStep(cfg, w, r, e, wr);
    case Prepare(g, e, wr) => PrepareStep(cfg, w, g, e, wr);
    case Report(g, o, e, wr) => ReportStep(cfg, w, g, o, e, wr);
    case Maintain(e, wr) => MaintainStep(cfg, w, e, wr);
    case _ => ProcessSteps(cfg, w, a);
  }

  lemma ForgetWaiter(cfg: Config, w: World, r: Rid)
    requires WorldOk(cfg, w)
    ensures WorldOk(cfg, w.(waiters := Without(w.waiters, r)))
  {
  }

  lemma InitialOk(cfg: Config, wall: real, mono: real, boot: Boot)
    requires cfg.Valid()
    ensures WorldOk(cfg, InitialWorld(cfg, wall, mono, boot))
  {
    InitialInv(cfg, wall, mono, boot);
  }

  /** Every world of every run satisfies the invariant. */
  lemma {:induction false} RunInvariant(cfg: Config, ws: seq<World>, acts: seq<Action>, i: nat)
    requires Run(cfg, ws, acts) && i < |ws|
    ensures WorldOk(cfg, ws[i])
    decreases i
  {
    hide Next, Enabled, WorldOk, Inv, Agrees, Refresh, Poll, Record, PrepareSend, Select, Evolves;
    if i == 0 {
      var wall, mono, boot :| ws[0] == InitialWorld(cfg, wall, mono, boot);
      InitialOk(cfg, wall, mono, boot);
    } else {
      RunInvariant(cfg, ws, acts, i - 1);
      assert ws[i - 1 + 1] == Next(cfg, ws[i - 1], acts[i - 1]);
      StepKeeps(cfg, ws[i - 1], acts[i - 1]);
    }
  }
}
