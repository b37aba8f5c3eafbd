/**
 * What one poll of `acquire` answers and does, in terms of the refreshed
 * document: who is registered and until when, who is turned away, who is
 * granted, and exactly what a grant changes.
 */
module LimiterAcquire {
  import opened Basics
  import opened LimiterConfig
  import opened LimiterState
  import opened LimiterSpec
  import opened LimiterInvariants
  import opened LimiterProtocol
  import opened LimiterHistory
  import opened LimiterWorld
  import opened LimiterSafety
  import opened LimiterFairness

  // -------------------------------------------------------------- registration

  /** The request is out of time: it lost its place and its hard limit is over. */
  predicate OutOfTime(cfg: Config, t: State, r: Rid, anchor: Option<real>, wall: real) {
    anchor.Some? && r !in t.pending && wall - anchor.value >= cfg.demandTtl
  }

  /** The request needs a place in a queue that has none left. */
  predicate QueueFull(cfg: Config, t: State, r: Rid, anchor: Option<real>, wall: real) {
    && (anchor == None || r !in t.pending) && !OutOfTime(cfg, t, r, anchor, wall)
    && |t.pending| >= cfg.pendingCapacity
  }

  /** The place of a request that is let in: its anchor is its first registration, its expiry never passes the hard limit. */
  function PlaceOf(cfg: Config, t: State, p: Prio, r: Rid, anchor: Option<real>, e: Env): Demand {
    var a := if anchor.Some? then anchor.value else e.wall;
    if anchor == None || r !in t.pending then
      Demand(p, e.pid, e.boot, a, RMin(a + cfg.demandTtl, e.wall + cfg.livenessTtl))
    else if t.pending[r].expireWall < e.wall + cfg.livenessTtl / 2.0 then
      t.pending[r].(expireWall := RMin(t.pending[r].registeredWall + cfg.demandTtl, e.wall + cfg.livenessTtl))
    else
      t.pending[r]
  }

  lemma RegisterLetsIn(cfg: Config, t: Txn, p: Prio, r: Rid, anchor: Option<real>, e: Env)
    ensures var reg := Register(cfg, t, p, r, anchor, e);
            && (reg == Stale <==> OutOfTime(cfg, t.st, r, anchor, e.wall))
            && (reg == Full <==> QueueFull(cfg, t.st, r, anchor, e.wall))
            && (reg.Registered? ==>
                  && reg.t.st == t.st.(pending := t.st.pending[r := PlaceOf(cfg, t.st, p, r, anchor, e)])
                  && reg.anchor == (if anchor.Some? then anchor.value else e.wall))
  {
    if r in t.st.pending {
      assert t.st.pending[r := t.st.pending[r]] == t.st.pending;
    }
  }

  /**
   * Who is turned away before selection, and with what: a request whose hard
   * limit is over while it has no place, and a request that needs a place in
   * a full queue. Neither changes the refreshed document. Everybody else has
   * the place and the anchor given by its first registration.
   */
  lemma WhoIsLetIn(cfg: Config, s: State, p: Prio, r: Rid, anchor: Option<real>, e: Env, budget: real)
    requires cfg.Valid()
    ensures var t, q := Refresh(cfg, s, e).st, Poll(cfg, s, p, r, anchor, e, budget);
            && (q.result == DemandExpired <==> OutOfTime(cfg, t, r, anchor, e.wall))
            && (q.result == Raised(PendingCapacity) <==> QueueFull(cfg, t, r, anchor, e.wall))
            && (OutOfTime(cfg, t, r, anchor, e.wall) || QueueFull(cfg, t, r, anchor, e.wall) ==>
                  q.t.st == t)
            && (!OutOfTime(cfg, t, r, anchor, e.wall) && !QueueFull(cfg, t, r, anchor, e.wall) ==>
                  q.anchor == Some(if anchor.Some? then anchor.value else e.wall))
  {
    hide Refresh, Register, Select, OutOfTime, QueueFull, PlaceOf;
    var t := Refresh(cfg, s, e);
    RegisterLetsIn(cfg, t, p, r, anchor, e);
    var reg := Register(cfg, t, p, r, anchor, e);
    NoPlaceNoDrop(cfg, t, r, anchor, e.wall);
    if reg.Registered? {
      SelectionIsNoRefusal(cfg, reg.t, p, r, reg.anchor, e, budget);
    }
  }

  lemma NoPlaceNoDrop(cfg: Config, t: Txn, r: Rid, anchor: Option<real>, wall: real)
    ensures OutOfTime(cfg, t.st, r, anchor, wall) ==> Drop(t, r) == t && !QueueFull(cfg, t.st, r, anchor, wall)
  {
  }

  lemma SelectionIsNoRefusal(cfg: Config, t: Txn, p: Prio, r: Rid, anchor: real, e: Env, budget: real)
    requires cfg.Valid()
    ensures var q := Select(cfg, t, p, r, anchor, e, budget);
            q.result != DemandExpired && q.result != Raised(PendingCapacity) && q.anchor == Some(anchor)
  {
    hide MayGrant, Issue, Drop;
  }

  /** A request that keeps waiting has its place, and nothing else has changed. */
  lemma WaitingKeepsThePlace(cfg: Config, s: State, p: Prio, r: Rid, anchor: Option<real>, e: Env, budget: real)
    requires cfg.Valid() && Poll(cfg, s, p, r, anchor, e, budget).result == KeepWaiting
    ensures var t := Refresh(cfg, s, e).st;
            && Poll(cfg, s, p, r, anchor, e, budget).t.st == t.(pending := t.pending[r := PlaceOf(cfg, t, p, r, anchor, e)])
            && !OutOfTime(cfg, t, r, anchor, e.wall) && !QueueFull(cfg, t, r, anchor, e.wall)
  {
    hide Refresh, Register, Select, OutOfTime, QueueFull, PlaceOf;
    var t := Refresh(cfg, s, e);
    RegisterLetsIn(cfg, t, p, r, anchor, e);
    var reg := Register(cfg, t, p, r, anchor, e);
    if reg.Registered? {
      SelectWaits(cfg, reg.t, p, r, reg.anchor, e, budget);
    }
  }

  lemma SelectWaits(cfg: Config, t: Txn, p: Prio, r: Rid, anchor: real, e: Env, budget: real)
    requires cfg.Valid() && Select(cfg, t, p, r, anchor, e, budget).result == KeepWaiting
    ensures Select(cfg, t, p, r, anchor, e, budget).t == t
  {
    hide MayGrant, Issue, Drop;
  }

  // ---------------------------------------------------------------- an open breaker

  lemma SelectWhileOpen(cfg: Config, t: Txn, p: Prio, r: Rid, anchor: real, e: Env, budget: real)
    requires cfg.Valid() && t.st.breaker.state == OPEN && r in t.st.pending
    ensures var q := Select(cfg, t, p, r, anchor, e, budget);
            var tooLong := t.st.breaker.cooldownUntil - e.wall >= budget || 0.0 >= budget;
            && (q.result == BreakerIsOpen <==> p == P3)
            && (q.result == CooldownExceedsDeadline <==> p != P3 && tooLong)
            && (q.result == KeepWaiting <==> p != P3 && !tooLong)
            && q.t.st == (if p == P3 || tooLong then t.st.(pending := t.st.pending - {r}) else t.st)
  {
  }

  /**
   * An open breaker turns the lowest class away at once, and any other request
   * exactly when its cooldown, or nothing at all, is longer than the time the
   * request has left. Those two lose their place; everybody else keeps
   * waiting in it, and nobody is granted.
   */
  lemma OpenBreakerAnswers(cfg: Config, s: State, p: Prio, r: Rid, anchor: Option<real>, e: Env, budget: real)
    requires cfg.Valid()
    requires var t := Refresh(cfg, s, e).st;
             t.breaker.state == OPEN && !OutOfTime(cfg, t, r, anchor, e.wall) && !QueueFull(cfg, t, r, anchor, e.wall)
    ensures var t, q := Refresh(cfg, s, e).st, Poll(cfg, s, p, r, anchor, e, budget);
            var wait := if t.breaker.cooldownUntil > e.wall then t.breaker.cooldownUntil - e.wall else 0.0;
            && (q.result == BreakerIsOpen <==> p == P3)
            && (q.result == CooldownExceedsDeadline <==> p != P3 && wait >= budget)
            && (q.result == KeepWaiting <==> p != P3 && wait < budget)
            && (r in q.t.st.pending <==> q.result == KeepWaiting)
            && q.t.st == t.(pending := q.t.st.pending)
            && (forall x :: x != r ==> (x in q.t.st.pending <==> x in t.pending))
  {
    hide Refresh, Register, Select;
    var t := Refresh(cfg, s, e);
    RegisterLetsIn(cfg, t, p, r, anchor, e);
    var reg := Register(cfg, t, p, r, anchor, e);
    SelectWhileOpen(cfg, reg.t, p, r, reg.anchor, e, budget);
    hide PlaceOf, OutOfTime, QueueFull;
  }

  /**
   * The same over a step that persists: of a poller that finds the breaker
   * open and is let in, place and request are still there afterwards exactly
   * when it is not of the lowest class and has more time than the cooldown.
   */
  lemma OpenBreakerStep(cfg: Config, w: World, r: Rid, e: Env, budget: real)
    requires cfg.Valid() && WorldOk(cfg, w) && r in w.waiters && Enabled(w, PollOnce(r, e, budget, Persisted))
    requires var t := Refresh(cfg, w.st, e).st;
             && t.breaker.state == OPEN && !OutOfTime(cfg, t, r, w.waiters[r].anchor, e.wall)
             && !QueueFull(cfg, t, r, w.waiters[r].anchor, e.wall)
    ensures var t, w' := Refresh(cfg, w.st, e).st, Next(cfg, w, PollOnce(r, e, budget, Persisted));
            var stays := w.waiters[r].prio != P3 && budget > 0.0 && e.wall + budget > t.breaker.cooldownUntil;
            (r in w'.waiters <==> stays) && (r in w'.st.pending <==> stays) && w'.h.granted == w.h.granted
  {
    hide Next, Enabled, Inv, Agrees, Poll, Refresh, OutOfTime, QueueFull;
    var wt := w.waiters[r];
    var q := Poll(cfg, w.st, wt.prio, r, wt.anchor, e, budget);
    OpenBreakerAnswers(cfg, w.st, wt.prio, r, wt.anchor, e, budget);
    NextOfPoll(cfg, w, r, e, budget, Persisted);
    FinishPollHistory(w, r, q, e, Persisted);
    FinishedPoll(w, r, q, e);
    if !q.t.dirty {
      CleanPoll(cfg, w.st, wt.prio, r, wt.anchor, e, budget);
    }
    hide FinishPoll;
  }

  lemma NextOfPoll(cfg: Config, w: World, r: Rid, e: Env, budget: real, wr: Write)
    requires cfg.Valid() && Enabled(w, PollOnce(r, e, budget, wr))
    ensures Next(cfg, w, PollOnce(r, e, budget, wr)) ==
            FinishPoll(w, r, Poll(cfg, w.st, w.waiters[r].prio, r, w.waiters[r].anchor, e, budget), e, wr)
  {
    hide Sound, FinishPoll, StepReport, RunTxn, Poll;
  }

  lemma FinishedPoll(w: World, r: Rid, q: Polled, e: Env)
    requires r in w.waiters
    ensures var w' := FinishPoll(w, r, q, e, Persisted);
            && (r in w'.waiters <==> q.result == KeepWaiting)
            && w'.st == (if q.t.dirty then q.t.st else w.st)
  {
  }

  // ------------------------------------------------------------------ a turn

  /**
   * On a breaker that is not open, a request that is let in is answered by
   * the document with its place in it: it waits unless there is a token, the
   * recovery slot is free, and it has the turn; then a full registry and a
   * witness that cannot be locked are raised in this order, and otherwise it
   * is granted.
   */
  lemma TurnAnswers(cfg: Config, s: State, p: Prio, r: Rid, anchor: Option<real>, e: Env, budget: real)
    requires cfg.Valid()
    requires var t := Refresh(cfg, s, e).st;
             t.breaker.state != OPEN && !OutOfTime(cfg, t, r, anchor, e.wall) && !QueueFull(cfg, t, r, anchor, e.wall)
    ensures var t, q := Refresh(cfg, s, e).st, Poll(cfg, s, p, r, anchor, e, budget);
            var d := t.(pending := t.pending[r := PlaceOf(cfg, t, p, r, anchor, e)]);
            var probing := t.breaker.state == RECOVERY;
            var mayGo := t.tokens >= 1.0 && (probing ==> t.breaker.probe == None) && Winner(cfg, d, e.wall) == Some((p, r));
            q.result ==
            if !mayGo then KeepWaiting
            else if |t.grants| >= cfg.registryCapacity then Raised(RegistryCapacity)
            else if probing && e.witnessFails then Raised(WitnessFailed)
            else Granted(Gid(t.epoch, t.lastNum + 1), probing)
  {
    hide Refresh, Register, Winner, Issue;
    var t := Refresh(cfg, s, e);
    RegisterLetsIn(cfg, t, p, r, anchor, e);
    hide PlaceOf, OutOfTime, QueueFull;
  }

  /**
   * What a grant changes, and nothing besides: one token and one number are
   * spent, the class's usage and the epoch's count go up by one, an open
   * record with this process as owner enters the registry, the slot of a
   * recovering breaker is taken with a fresh lease and no marker, and the
   * request leaves the queue.
   */
  lemma GrantChanges(cfg: Config, s: State, p: Prio, r: Rid, anchor: Option<real>, e: Env, budget: real)
    requires cfg.Valid() && Poll(cfg, s, p, r, anchor, e, budget).result.Granted?
    ensures var t, q := Refresh(cfg, s, e).st, Poll(cfg, s, p, r, anchor, e, budget);
            var probing := t.breaker.state == RECOVERY;
            var s' := q.t.st;
            && q.t.dirty && q.result == Granted(Gid(t.epoch, t.lastNum + 1), probing)
            && s'.tokens == t.tokens - 1.0 && s'.lastNum == t.lastNum + 1 && s'.totalGrants == t.totalGrants + 1
            && s'.epochGrants == t.epochGrants + 1
            && (forall c :: s'.usage.At(c) == t.usage.At(c) + if c == p then 1 else 0)
            && s'.grants == t.grants[q.result.gid := Grant(p, e.wall, None, probing, e.pid, e.boot, false)]
            && s'.breaker == (if probing
                              then t.breaker.(probe := Some(Probe(q.result.gid, e.pid, e.boot,
                                                                  e.wall + cfg.probeLease, false, false)))
                              else t.breaker)
            && s'.pending == t.pending - {r}
            && s' == t.(tokens := s'.tokens, lastNum := s'.lastNum, totalGrants := s'.totalGrants,
                        epochGrants := s'.epochGrants, usage := s'.usage, grants := s'.grants, breaker := s'.breaker,
                        pending := s'.pending)
  {
    hide Refresh, Register, Select, OutOfTime, QueueFull;
    var t := Refresh(cfg, s, e);
    RegisterLetsIn(cfg, t, p, r, anchor, e);
    var reg := Register(cfg, t, p, r, anchor, e);
    SelectGrants(cfg, reg.t, p, r, reg.anchor, e, budget);
    assert t.st.pending[r := PlaceOf(cfg, t.st, p, r, anchor, e)] - {r} == t.st.pending - {r};
    hide PlaceOf;
  }

  lemma SelectGrants(cfg: Config, t: Txn, p: Prio, r: Rid, anchor: real, e: Env, budget: real)
    requires cfg.Valid() && Select(cfg, t, p, r, anchor, e, budget).result.Granted?
    ensures var s, q := t.st, Select(cfg, t, p, r, anchor, e, budget);
            var gid, probing := Gid(s.epoch, s.lastNum + 1), s.breaker.state == RECOVERY;
            && q.t.dirty && q.result == Granted(gid, probing)
            && q.t.st == s.(tokens := s.tokens - 1.0, lastNum := s.lastNum + 1, totalGrants := s.totalGrants + 1,
                            epochGrants := s.epochGrants + 1, usage := q.t.st.usage,
                            grants := s.grants[gid := Grant(p, e.wall, None, probing, e.pid, e.boot, false)],
                            breaker := if probing
                                       then s.breaker.(probe := Some(Probe(gid, e.pid, e.boot,
                                                                           e.wall + cfg.probeLease, false, false)))
                                       else s.breaker,
                            pending := s.pending - {r})
            && (forall c :: q.t.st.usage.At(c) == s.usage.At(c) + if c == p then 1 else 0)
  {
    hide Select, Issue, NextGid;
    SelectIssues(cfg, t, p, r, anchor, e, budget);
    NextIs(t.st);
    IssueChanges(cfg, t.st, p, r, e);
  }

  lemma SelectIssues(cfg: Config, t: Txn, p: Prio, r: Rid, anchor: real, e: Env, budget: real)
    requires cfg.Valid() && Select(cfg, t, p, r, anchor, e, budget).result.Granted?
    ensures Select(cfg, t, p, r, anchor, e, budget) ==
            Polled(Txn(Issue(cfg, t.st, p, r, e), true), Granted(NextGid(t.st), t.st.breaker.state == RECOVERY), Some(anchor))
  {
    hide MayGrant, Issue, NextGid, Drop;
  }

  lemma NextIs(s: State)
    ensures NextGid(s) == Gid(s.epoch, s.lastNum + 1)
  {
  }

  lemma IssueChanges(cfg: Config, s: State, p: Prio, r: Rid, e: Env)
    ensures var s' := Issue(cfg, s, p, r, e);
            var gid, probing := Gid(s.epoch, s.lastNum + 1), s.breaker.state == RECOVERY;
            && s' == s.(tokens := s.tokens - 1.0, lastNum := s.lastNum + 1, totalGrants := s.totalGrants + 1,
                        epochGrants := s.epochGrants + 1, usage := s'.usage,
                        grants := s.grants[gid := Grant(p, e.wall, None, probing, e.pid, e.boot, false)],
                        breaker := if probing
                                   then s.breaker.(probe := Some(Probe(gid, e.pid, e.boot,
                                                                       e.wall + cfg.probeLease, false, false)))
                                   else s.breaker,
                        pending := s.pending - {r})
            && (forall c :: s'.usage.At(c) == s.usage.At(c) + if c == p then 1 else 0)
  {
  }
}
