/**
 * The bucket's promise over time: between any two documents of a run the
 * grants are bounded by the burst plus the rate times the advance of the wall
 * clock, and in a run whose wall never goes back the registry never overflows.
 */
module LimiterRate {
  import opened Basics
  import opened LimiterConfig
  import opened LimiterState
  import opened LimiterSpec
  import opened LimiterInvariants
  import opened LimiterProtocol
  import opened LimiterHistory
  import opened LimiterWorld
  import opened LimiterSafety

  /** What the bucket refills in dt seconds, ceiling aside. */
  function Flow(cfg: Config, dt: real): real { cfg.gRps * dt }

  lemma FlowAdds(cfg: Config, a: real, b: real)
    ensures Flow(cfg, a) + Flow(cfg, b) == Flow(cfg, a + b)
  {
  }

  lemma FlowGrows(cfg: Config, a: real, b: real)
    requires cfg.Valid() && a <= b
    ensures Flow(cfg, a) <= Flow(cfg, b) && (a < b ==> Flow(cfg, a) < Flow(cfg, b)) && Flow(cfg, 0.0) == 0.0
  {
    if a < b {
      assert cfg.gRps * (b - a) > 0.0;
    }
  }

  // ------------------------------------------------------------------- refills

  /** s' is s after `wall` was read: credited by at most the rate times the wall that passed. */
  predicate Paced(cfg: Config, s: State, s': State, wall: real) {
    && s'.lastWall == wall
    && 0.0 <= s'.refillTotal - s.refillTotal <= Flow(cfg, wall - s.lastWall)
    && s'.tokens - s.tokens == s'.refillTotal - s.refillTotal
    && s'.lastNum == s.lastNum
  }

  lemma ClockPaced(cfg: Config, t: Txn, e: Env)
    requires cfg.Valid() && Accounts(cfg, t.st) && t.st.lastWall <= e.wall
    ensures Paced(cfg, t.st, ClockRule(cfg, t, e).st, e.wall)
  {
    hide Classify, Applied;
    FlowGrows(cfg, 0.0, e.wall - t.st.lastWall);
    if e.wall - t.st.lastWall > 0.0 {
      CreditIsBounded(cfg, t.st.tokens, e.wall - t.st.lastWall);
    }
  }

  lemma RefreshPaced(cfg: Config, s: State, e: Env)
    requires cfg.Valid() && Inv(cfg, s) && s.lastWall <= e.wall
    ensures Paced(cfg, s, Refresh(cfg, s, e).st, e.wall)
  {
    var t0 := DropLeaked(Txn(s, false), e);
    PendingKeeps(cfg, s, t0.st.pending);
    ClockPaced(cfg, t0, e);
    var t1 := ClockRule(cfg, t0, e);
    assert Paced(cfg, s, t1.st, e.wall);
    hide ClockRule, DropLeaked, Inv, Flow;
    AfterClock(cfg, t1, e);
  }

  /** The phases after the clock rule leave the bucket and the ids alone. */
  lemma AfterClock(cfg: Config, t: Txn, e: Env)
    requires cfg.Valid()
    ensures var t2 := ProbePhase(cfg, PrunePending(t, e), e);
            var s' := EvictPhase(cfg, ReconcilePhase(CooldownPhase(t2, e), e), e).st;
            && s'.lastWall == t.st.lastWall && s'.lastMono == t.st.lastMono && s'.boot == t.st.boot
            && s'.refillTotal == t.st.refillTotal && s'.tokens == t.st.tokens && s'.lastNum == t.st.lastNum
  {
    BucketUntouched(cfg, t, e);
    hide ProbePhase, PrunePending;
  }

  lemma BucketUntouched(cfg: Config, t: Txn, e: Env)
    requires cfg.Valid()
    ensures var s' := ProbePhase(cfg, PrunePending(t, e), e).st;
            && s'.lastWall == t.st.lastWall && s'.lastMono == t.st.lastMono && s'.boot == t.st.boot
            && s'.refillTotal == t.st.refillTotal && s'.tokens == t.st.tokens && s'.lastNum == t.st.lastNum
  {
  }

  /** From r to s': no credit, and every token spent is one new record issued at this wall. */
  predicate Spends(r: State, s': State, wall: real) {
    && s'.lastWall == r.lastWall && s'.refillTotal == r.refillTotal
    && s'.lastNum as real + s'.tokens == r.lastNum as real + r.tokens
    && r.lastNum <= s'.lastNum
    && (forall g :: g in s'.grants ==> g in r.grants || (r.lastNum < g.num == s'.lastNum && s'.grants[g].issuedWall == wall))
    && (forall g :: g in s'.grants && g in r.grants ==> s'.grants[g].issuedWall == r.grants[g].issuedWall)
  }

  predicate SameBucket(r: State, s': State) {
    && s'.lastWall == r.lastWall && s'.refillTotal == r.refillTotal
    && s'.lastNum == r.lastNum && s'.tokens == r.tokens
    && s'.grants.Keys == r.grants.Keys
    && forall g :: g in r.grants ==> s'.grants[g].issuedWall == r.grants[g].issuedWall
  }

  lemma DropSpendsNothing(t: Txn, r: Rid)
    ensures SameBucket(t.st, t.st) && SameBucket(t.st, Drop(t, r).st)
  {
  }

  lemma PrepareSpendsNothing(t: Txn, g: Gid)
    ensures SameBucket(t.st, PrepareSend(t, g).0.st)
  {
  }

  lemma RecordSpendsNothing(cfg: Config, t: Txn, g: Gid, o: Outcome, wall: real)
    requires cfg.Valid()
    ensures SameBucket(t.st, Record(cfg, t, g, o, wall).0.st)
  {
    if Open(t.st, g) {
      var c := t.st.(grants := CloseGrant(t.st.grants, g, o));
      assert SameBucket(t.st, c);
      assert ApplyOutcome(cfg, c, g, o, wall).grants == c.grants;
    }
  }

  lemma SameBucketSpends(r: State, s': State, wall: real)
    requires SameBucket(r, s')
    ensures Spends(r, s', wall)
  {
  }

  lemma QuietSpends(cfg: Config, t: Txn, r: Rid, g: Gid, o: Outcome, wall: real)
    requires cfg.Valid()
    ensures Spends(t.st, t.st, wall) && Spends(t.st, Drop(t, r).st, wall)
    ensures Spends(t.st, PrepareSend(t, g).0.st, wall)
    ensures Spends(t.st, Record(cfg, t, g, o, wall).0.st, wall)
  {
    hide Record, PrepareSend, Drop, SameBucket, Spends;
    DropSpendsNothing(t, r);
    PrepareSpendsNothing(t, g);
    RecordSpendsNothing(cfg, t, g, o, wall);
    SameBucketSpends(t.st, t.st, wall);
    SameBucketSpends(t.st, Drop(t, r).st, wall);
    SameBucketSpends(t.st, PrepareSend(t, g).0.st, wall);
    SameBucketSpends(t.st, Record(cfg, t, g, o, wall).0.st, wall);
  }

  lemma PollSpends(cfg: Config, s: State, p: Prio, q: Rid, anchor: Option<real>, e: Env, budget: real)
    requires cfg.Valid() && Inv(cfg, s)
    ensures Spends(Refresh(cfg, s, e).st, Poll(cfg, s, p, q, anchor, e, budget).t.st, e.wall)
  {
    hide Run, Next, Enabled, WorldOk, Inv, Agrees, Refresh, Record, PrepareSend, Select, TxnOf, Evolves;
    RefreshKeeps(cfg, s, e);
    var t := Refresh(cfg, s, e);
    hide Spends;
    RegisterKeeps(cfg, t, p, q, anchor, e);
    match Register(cfg, t, p, q, anchor, e)
    case Full => SameBucketSpends(t.st, t.st, e.wall);
    case Stale => SameBucketSpends(t.st, Drop(t, q).st, e.wall);
    case Registered(t', a) =>
      InvIds(cfg, t'.st);
      SelectSpends(cfg, t', p, q, a, e, budget);
      assert t'.st == t.st.(pending := t'.st.pending);
      SpendsIgnoresQueue(t.st, t'.st, Select(cfg, t', p, q, a, e, budget).t.st, e.wall);
  }

  lemma SelectSpends(cfg: Config, t: Txn, p: Prio, q: Rid, anchor: real, e: Env, budget: real)
    requires cfg.Valid() && Inv(cfg, t.st)
    ensures Spends(t.st, Select(cfg, t, p, q, anchor, e, budget).t.st, e.wall)
  {
    InvIds(cfg, t.st);
    SelectFrame(cfg, t, p, q, anchor, e, budget);
    hide Select, Inv;
  }

  lemma SpendsIgnoresQueue(r: State, r': State, s': State, wall: real)
    requires r' == r.(pending := r'.pending) && Spends(r', s', wall)
    ensures Spends(r, s', wall)
  {
  }

  /** After its refresh a transaction spends at most one token, and credits none. */
  lemma AfterRefresh(cfg: Config, w: World, a: Action)
    requires cfg.Valid() && Inv(cfg, w.st) && Enabled(w, a) && a.Writes()
    ensures Spends(Refresh(cfg, w.st, a.e).st, TxnOf(cfg, w, a).st, a.e.wall)
  {
    hide WorldOk, Inv, Agrees, Refresh, Poll, Record, PrepareSend, Select, Evolves;
    var t := Refresh(cfg, w.st, a.e);
    hide Drop, Spends;
    match a
    case PollOnce(r, e, budget, _) =>
      PollSpends(cfg, w.st, w.waiters[r].prio, r, w.waiters[r].anchor, e, budget);
    case GiveUp(r, e, _) => QuietSpends(cfg, t, r, Gid(0, 0), OK, e.wall);
    case DropDemand(r, e, _) => QuietSpends(cfg, t, r, Gid(0, 0), OK, e.wall);
    case Prepare(g, e, _) => QuietSpends(cfg, t, 0, g, OK, e.wall);
    case Report(g, o, e, _) => QuietSpends(cfg, t, 0, g, o, e.wall);
    case Maintain(e, _) => QuietSpends(cfg, t, 0, Gid(0, 0), OK, e.wall);
  }

  // --------------------------------------------------------------- rate bound

  /** The walls read by the steps from i up to j do not go back; what came before or comes after does not matter. */
  ghost predicate WallsAdvance(ws: seq<World>, acts: seq<Action>, i: nat, j: nat)
    requires |ws| == |acts| + 1
  {
    forall k :: i <= k < j && k < |acts| && acts[k].Writes() ==> ws[k].h.wallNow <= acts[k].e.wall
  }

  /** Grants since the id `start` and the tokens left, against the burst and the refill since the wall w0. */
  predicate Funded(cfg: Config, s: State, start: nat, w0: real, wall: real) {
    (s.lastNum - start) as real + s.tokens <= cfg.burst + Flow(cfg, RMin(s.lastWall, wall) - w0)
  }

  /** A document stored before w0 may still be refilled for time before w0, but has granted nothing since. */
  predicate Metered(cfg: Config, s: State, start: nat, w0: real, wall: real) {
    (s.lastNum == start && s.lastWall < w0) || Funded(cfg, s, start, w0, wall)
  }

  lemma ClockFunded(cfg: Config, t: Txn, e: Env, start: nat, w0: real, wall: real)
    requires cfg.Valid() && Inv(cfg, t.st) && w0 <= wall <= e.wall && Metered(cfg, t.st, start, w0, wall)
    ensures Funded(cfg, ClockRule(cfg, t, e).st, start, w0, e.wall)
  {
    var s, s' := t.st, ClockRule(cfg, t, e).st;
    ClockCredit(cfg, t, e);
    hide ClockRule, Inv, Flow;
    FlowGrows(cfg, 0.0, e.wall - w0);
    FlowGrows(cfg, RMin(s.lastWall, wall) - w0, RMin(s'.lastWall, e.wall) - w0);
    if s.lastWall < e.wall {
      Chain(cfg, w0, s.lastWall, e.wall);
      FlowGrows(cfg, RMin(s.lastWall, wall) - w0, s.lastWall - w0);
    }
  }

  /** Either the baseline moves to this wall, with at most its flow credited, or the wall is behind it and nothing happens. */
  lemma ClockCredit(cfg: Config, t: Txn, e: Env)
    requires cfg.Valid() && Inv(cfg, t.st)
    ensures var s, s' := t.st, ClockRule(cfg, t, e).st;
            && s'.lastNum == s.lastNum && s.tokens <= s'.tokens <= cfg.burst
            && (if s.lastWall < e.wall then s'.lastWall == e.wall && s'.tokens <= s.tokens + Flow(cfg, e.wall - s.lastWall)
                else s'.tokens == s.tokens && (s'.lastWall == e.wall || s'.lastWall == s.lastWall))
  {
    var s := t.st;
    if s.lastWall < e.wall {
      FlowGrows(cfg, 0.0, e.wall - s.lastWall);
      CreditIsBounded(cfg, s.tokens, e.wall - s.lastWall);
    }
    hide Classify, Applied, IssuedIds, SlotDiscipline, BreakerShape, DemandsCapped;
  }

  lemma RefreshFunded(cfg: Config, s: State, e: Env, start: nat, w0: real, wall: real)
    requires cfg.Valid() && Inv(cfg, s) && w0 <= wall <= e.wall && Metered(cfg, s, start, w0, wall)
    ensures Funded(cfg, Refresh(cfg, s, e).st, start, w0, e.wall)
  {
    hide ClockRule, Inv, Flow;
    var t0 := DropLeaked(Txn(s, false), e);
    PendingKeeps(cfg, s, t0.st.pending);
    assert Metered(cfg, t0.st, start, w0, wall);
    ClockFunded(cfg, t0, e, start, w0, wall);
    AfterClock(cfg, ClockRule(cfg, t0, e), e);
    hide DropLeaked, ProbePhase, PrunePending, CooldownPhase, ReconcilePhase, EvictPhase;
  }

  lemma StepMetered(cfg: Config, w: World, a: Action, start: nat, w0: real)
    requires cfg.Valid() && WorldOk(cfg, w) && Enabled(w, a) && w0 <= w.h.wallNow
    requires a.Writes() ==> w.h.wallNow <= a.e.wall
    requires Metered(cfg, w.st, start, w0, w.h.wallNow)
    ensures var w' := Next(cfg, w, a); w0 <= w'.h.wallNow && Metered(cfg, w'.st, start, w0, w'.h.wallNow)
  {
    hide Next, TxnOf, Enabled, Refresh, Flow, WorldOk, Inv, Spends;
    NextDocument(cfg, w, a);
    WallNow(cfg, w, a);
    DocumentOk(cfg, w);
    if a.Writes() {
      RefreshFunded(cfg, w.st, a.e, start, w0, w.h.wallNow);
      AfterRefresh(cfg, w, a);
      SpendingFunded(cfg, Refresh(cfg, w.st, a.e).st, TxnOf(cfg, w, a).st, a.e.wall, start, w0);
      FlowGrows(cfg, RMin(w.st.lastWall, w.h.wallNow) - w0, RMin(w.st.lastWall, a.e.wall) - w0);
    }
  }

  lemma SpendingFunded(cfg: Config, r: State, t: State, wall: real, start: nat, w0: real)
    requires Spends(r, t, wall) && Funded(cfg, r, start, w0, wall)
    ensures Funded(cfg, t, start, w0, wall)
  {
    hide Flow;
  }

  lemma RunShape(cfg: Config, ws: seq<World>, acts: seq<Action>)
    requires Run(cfg, ws, acts)
    ensures cfg.Valid() && |ws| == |acts| + 1
  {
  }

  lemma Chain(cfg: Config, a: real, b: real, c: real)
    ensures Flow(cfg, b - a) + Flow(cfg, c - b) == Flow(cfg, c - a)
  {
    FlowAdds(cfg, b - a, c - b);
  }

  lemma StepOf(cfg: Config, ws: seq<World>, acts: seq<Action>, k: nat)
    requires Run(cfg, ws, acts) && k < |acts|
    ensures cfg.Valid() && Enabled(ws[k], acts[k]) && ws[k + 1] == Next(cfg, ws[k], acts[k])
  {
  }

  lemma {:induction false} RunMetered(cfg: Config, ws: seq<World>, acts: seq<Action>, i: nat, j: nat)
    requires Run(cfg, ws, acts) && i <= j < |ws| && WallsAdvance(ws, acts, i, j)
    ensures ws[i].h.wallNow <= ws[j].h.wallNow
    ensures Metered(cfg, ws[j].st, ws[i].st.lastNum, ws[i].h.wallNow, ws[j].h.wallNow)
    decreases j - i
  {
    hide Run, Next, Enabled, WorldOk, Metered, Flow;
    RunShape(cfg, ws, acts);
    if i == j {
      TokensConserved(cfg, ws, acts, i);
      StartsMetered(cfg, ws[i].st, ws[i].h.wallNow);
    } else {
      RunMetered(cfg, ws, acts, i, j - 1);
      RunInvariant(cfg, ws, acts, j - 1);
      StepOf(cfg, ws, acts, j - 1);
      StepMetered(cfg, ws[j - 1], acts[j - 1], ws[i].st.lastNum, ws[i].h.wallNow);
    }
  }

  lemma StartsMetered(cfg: Config, s: State, wall: real)
    requires s.tokens <= cfg.burst
    ensures Metered(cfg, s, s.lastNum, wall, wall)
  {
    assert Flow(cfg, 0.0) == 0.0;
    hide Flow;
    if s.lastWall >= wall {
      assert RMin(s.lastWall, wall) - wall == 0.0;
    }
  }

  /**
   * The grants issued between any two documents of a run are at most the
   * burst plus the rate times the wall clock's advance between them, whatever
   * the wall did before and does after, and however old the stored baseline.
   */
  lemma RateBound(cfg: Config, ws: seq<World>, acts: seq<Action>, i: nat, j: nat)
    requires Run(cfg, ws, acts) && i <= j < |ws| && WallsAdvance(ws, acts, i, j)
    ensures (ws[j].st.totalGrants - ws[i].st.totalGrants) as real
         <= cfg.burst + Flow(cfg, ws[j].h.wallNow - ws[i].h.wallNow)
  {
    hide Run, Flow;
    RunShape(cfg, ws, acts);
    RunMetered(cfg, ws, acts, i, j);
    TokensConserved(cfg, ws, acts, i);
    TokensConserved(cfg, ws, acts, j);
    var w0, s, wall := ws[i].h.wallNow, ws[j].st, ws[j].h.wallNow;
    FlowGrows(cfg, RMin(s.lastWall, wall) - w0, wall - w0);
    FlowGrows(cfg, 0.0, wall - w0);
    assert (s.lastNum - ws[i].st.lastNum) as real <= cfg.burst + Flow(cfg, wall - w0);
  }

  /** While the wall advances the document's wall never passes the clock's. */
  lemma StepWalls(cfg: Config, w: World, a: Action)
    requires cfg.Valid() && WorldOk(cfg, w) && Enabled(w, a)
    requires w.st.lastWall <= w.h.wallNow && (a.Writes() ==> w.h.wallNow <= a.e.wall)
    ensures var w' := Next(cfg, w, a); w'.st.lastWall <= w'.h.wallNow
  {
    hide Next, TxnOf, Enabled, Refresh, Flow, WorldOk, Inv;
    NextDocument(cfg, w, a);
    WallNow(cfg, w, a);
    DocumentOk(cfg, w);
    if a.Writes() {
      RefreshPaced(cfg, w.st, a.e);
      AfterRefresh(cfg, w, a);
      assert TxnOf(cfg, w, a).st.lastWall == a.e.wall;
    }
  }

  lemma {:induction false} RunWalls(cfg: Config, ws: seq<World>, acts: seq<Action>, i: nat)
    requires Run(cfg, ws, acts) && i < |ws| && WallsAdvance(ws, acts, 0, i)
    ensures ws[i].st.lastWall <= ws[i].h.wallNow
    decreases i
  {
    hide Next, WorldOk, Enabled, Flow;
    if i == 0 {
      assert ws[0].st.lastWall == ws[0].h.wallNow;
    } else {
      RunWalls(cfg, ws, acts, i - 1);
      RunInvariant(cfg, ws, acts, i - 1);
      StepOf(cfg, ws, acts, i - 1);
      StepWalls(cfg, ws[i - 1], acts[i - 1]);
    }
  }

  // ------------------------------------------------------------------ registry

  /** What was issued since record g, plus what is left, came from what was left then and the refills since. */
  predicate Spaced(cfg: Config, s: State) {
    forall g :: g in s.grants ==>
      (s.lastNum - g.num) as real + s.tokens <= cfg.burst - 1.0 + Flow(cfg, s.lastWall - s.grants[g].issuedWall)
  }

  /** The bound of one record, carried from s to r by a refill. */
  lemma RecordStaysSpaced(cfg: Config, s: State, r: State, wall: real, g: Gid)
    requires Paced(cfg, s, r, wall) && Spaced(cfg, s)
    requires g in s.grants && g in r.grants && r.grants[g].issuedWall == s.grants[g].issuedWall
    ensures (r.lastNum - g.num) as real + r.tokens <= cfg.burst - 1.0 + Flow(cfg, r.lastWall - r.grants[g].issuedWall)
  {
    hide Flow;
    var issued := s.grants[g].issuedWall;
    Chain(cfg, issued, s.lastWall, wall);
    assert (s.lastNum - g.num) as real + s.tokens <= cfg.burst - 1.0 + Flow(cfg, s.lastWall - issued);
    assert r.tokens <= s.tokens + Flow(cfg, wall - s.lastWall);
    assert r.lastNum - g.num == s.lastNum - g.num && r.lastWall - r.grants[g].issuedWall == wall - issued;
  }

  lemma RefreshSpaced(cfg: Config, s: State, e: Env)
    requires cfg.Valid() && Inv(cfg, s) && s.lastWall <= e.wall && Spaced(cfg, s)
    ensures Spaced(cfg, Refresh(cfg, s, e).st)
  {
    hide Refresh, Inv, Flow, Paced;
    RefreshPaced(cfg, s, e);
    RefreshIds(cfg, s, e);
    RefreshKeeps(cfg, s, e);
    var r := Refresh(cfg, s, e).st;
    forall g | g in r.grants
      ensures (r.lastNum - g.num) as real + r.tokens <= cfg.burst - 1.0 + Flow(cfg, r.lastWall - r.grants[g].issuedWall)
    {
      assert RecordKept(s.grants[g], r.grants[g]);
      RecordStaysSpaced(cfg, s, r, e.wall, g);
    }
  }

  lemma SpendingSpaced(cfg: Config, r: State, t: State, wall: real)
    requires cfg.Valid() && Spaced(cfg, r) && Spends(r, t, wall) && r.lastWall == wall
    requires t.tokens <= r.tokens <= cfg.burst
    requires forall g :: g in t.grants && g !in r.grants ==> t.tokens <= r.tokens - 1.0
    ensures Spaced(cfg, t)
  {
    FlowGrows(cfg, 0.0, 0.0);
    hide Flow;
  }

  lemma TxnSpaced(cfg: Config, w: World, a: Action)
    requires cfg.Valid() && Inv(cfg, w.st) && Enabled(w, a) && a.Writes()
    requires w.st.lastWall <= a.e.wall && Spaced(cfg, w.st)
    ensures Spaced(cfg, TxnOf(cfg, w, a).st)
  {
    hide TxnOf, Refresh, Inv, Flow, Spaced, Enabled;
    RefreshSpaced(cfg, w.st, a.e);
    RefreshPaced(cfg, w.st, a.e);
    RefreshKeeps(cfg, w.st, a.e);
    AfterRefresh(cfg, w, a);
    var r := Refresh(cfg, w.st, a.e).st;
    var t := TxnOf(cfg, w, a).st;
    InvIds(cfg, r);
    FreshNumbers(r, t, a.e.wall);
    SpendingSpaced(cfg, r, t, a.e.wall);
  }

  /** A new record means a new number, and a number costs a token. */
  lemma FreshNumbers(r: State, t: State, wall: real)
    requires Spends(r, t, wall) && IssuedIds(r)
    ensures t.tokens <= r.tokens
    ensures forall g :: g in t.grants && g !in r.grants ==> t.tokens <= r.tokens - 1.0
  {
  }

  lemma {:induction false} RunSpaced(cfg: Config, ws: seq<World>, acts: seq<Action>, i: nat)
    requires Run(cfg, ws, acts) && i < |ws| && WallsAdvance(ws, acts, 0, i)
    ensures Spaced(cfg, ws[i].st)
    decreases i
  {
    hide Next, Enabled, WorldOk, Inv, Agrees, Refresh, Poll, Record, PrepareSend, Select, TxnOf, Evolves;
    hide Spaced;
    if i == 0 {
      EmptySpaced(cfg, ws[0].st);
    } else {
      RunSpaced(cfg, ws, acts, i - 1);
      RunInvariant(cfg, ws, acts, i - 1);
      RunWalls(cfg, ws, acts, i - 1);
      WorldInv(cfg, ws[i - 1]);
      assert ws[i - 1 + 1] == Next(cfg, ws[i - 1], acts[i - 1]);
      NextDocument(cfg, ws[i - 1], acts[i - 1]);
      if acts[i - 1].Writes() {
        TxnSpaced(cfg, ws[i - 1], acts[i - 1]);
      }
    }
  }

  lemma EmptySpaced(cfg: Config, s: State)
    requires s.grants == map[]
    ensures Spaced(cfg, s)
  {
  }

  /** Every record is younger than the replay window at this wall. */
  predicate AllYoung(cfg: Config, s: State, wall: real) {
    forall g :: g in s.grants ==> wall - s.grants[g].issuedWall < cfg.maxLifetime
  }

  predicate OpenAreYoung(cfg: Config, s: State, wall: real) {
    forall g :: g in s.grants && s.grants[g].outcome == None ==> wall - s.grants[g].issuedWall < cfg.maxLifetime
  }

  lemma RefreshLeavesYoung(cfg: Config, s: State, e: Env)
    requires cfg.Valid() && OpenAreYoung(cfg, Refresh(cfg, s, e).st, e.wall)
    ensures AllYoung(cfg, Refresh(cfg, s, e).st, e.wall)
  {
    var k := Steps(cfg, s, e);
    assert Refresh(cfg, s, e) == EvictPhase(cfg, k.reconciled, e);
    hide Refresh;
  }

  /** Records numbered from some first one to the last: no more than that many. */
  lemma RegistrySize(s: State, first: nat)
    requires IssuedIds(s) && first <= s.lastNum + 1
    requires forall g :: g in s.grants ==> first <= g.num
    ensures |s.grants| <= s.lastNum - first + 1
  {
    var nums := set g | g in s.grants :: g.num;
    var byNum := (g: Gid) => g.num;
    BoundedNats(nums, first, s.lastNum);
    InjectiveImageSize(s.grants.Keys, byNum, nums);
    assert |s.grants| == |s.grants.Keys|;
  }

  lemma BoundedNats(nums: set<nat>, lo: nat, hi: nat)
    requires lo <= hi + 1 && forall n :: n in nums ==> lo <= n <= hi
    ensures |nums| <= hi - lo + 1
  {
    var ints: set<int> := set n | n in nums :: n as int;
    assert forall n :: n in nums <==> (n as int) in ints;
    InjectiveImageSize(nums, (n: nat) => n as int, ints);
    BoundedSetSize(ints, lo, hi);
  }

  /** A spaced document whose records are all young holds fewer records than the bucket can issue in a window. */
  lemma YoungRegistryIsSmall(cfg: Config, s: State, wall: real)
    requires cfg.Valid() && IssuedIds(s) && Spaced(cfg, s) && AllYoung(cfg, s, wall)
    requires s.lastWall == wall && s.tokens >= 0.0
    requires cfg.burst + Flow(cfg, cfg.maxLifetime) <= cfg.registryCapacity as real
    ensures |s.grants| < cfg.registryCapacity
  {
    hide Flow;
    FlowGrows(cfg, 0.0, cfg.maxLifetime);
    if s.grants != map[] {
      var g0 := OldestRecord(s);
      RegistrySize(s, g0.num);
      FlowGrows(cfg, wall - s.grants[g0].issuedWall, cfg.maxLifetime);
    }
  }

  lemma OldestRecord(s: State) returns (g0: Gid)
    requires s.grants != map[]
    ensures g0 in s.grants && forall g :: g in s.grants ==> g0.num <= g.num
  {
    g0 :| g0 in s.grants;
    var todo := s.grants.Keys;
    while todo != {}
      invariant todo <= s.grants.Keys && g0 in s.grants
      invariant forall g :: g in s.grants && g !in todo ==> g0.num <= g.num
      decreases todo
    {
      var g :| g in todo;
      if g.num < g0.num {
        g0 := g;
      }
      todo := todo - {g};
    }
  }

  lemma CapacityRefusal(cfg: Config, s: State, p: Prio, r: Rid, anchor: Option<real>, e: Env, budget: real)
    requires cfg.Valid() && |Refresh(cfg, s, e).st.grants| < cfg.registryCapacity
    ensures Poll(cfg, s, p, r, anchor, e, budget).result != Raised(RegistryCapacity)
  {
    hide Run, Next, Enabled, WorldOk, Inv, Agrees, Refresh, Record, PrepareSend, ClockRule, ProbePhase,
      ReconcilePhase, EvictPhase, FinishPoll, FinishReport, TxnOf, Evolves, SlotDiscipline, IssuedIds,
      HistoryOfRecord, HistoryOfRefresh, RunTxn;
    var t := Refresh(cfg, s, e);
    match Register(cfg, t, p, r, anchor, e)
    case Full =>
    case Stale =>
    case Registered(t', a) =>
      assert t'.st.grants == t.st.grants;
      hide Register;
      if t'.st.breaker.state != OPEN {
        match TryGrant(cfg, t'.st, p, r, e)
        case NoGrant =>
        case Refused(why) => assert why != RegistryCapacity;
        case Issued(_, _) =>
      }
  }

  /**
   * As long as the wall has never gone back, no poll is refused for registry
   * capacity if open grants are younger than the replay window when it is
   * made: the capacity rule covers what the bucket can issue in one window.
   */
  lemma RegistryNeverOverflows(cfg: Config, ws: seq<World>, acts: seq<Action>, i: nat)
    requires Run(cfg, ws, acts) && i < |acts| && acts[i].PollOnce? && WallsAdvance(ws, acts, 0, i + 1)
    requires cfg.burst <= cfg.gRps * cfg.maxLifetime
    requires OpenAreYoung(cfg, Refresh(cfg, ws[i].st, acts[i].e).st, acts[i].e.wall)
    ensures var w, a := ws[i], acts[i];
            Poll(cfg, w.st, w.waiters[a.r].prio, a.r, w.waiters[a.r].anchor, a.e, a.budget).result
              != Raised(RegistryCapacity)
  {
    hide Refresh, WorldOk, Spaced, Poll;
    var w, a := ws[i], acts[i];
    RunInvariant(cfg, ws, acts, i);
    RunSpaced(cfg, ws, acts, i);
    RunWalls(cfg, ws, acts, i);
    DocumentOk(cfg, w);
    RoomAfterRefresh(cfg, w.st, a.e);
    CapacityRefusal(cfg, w.st, w.waiters[a.r].prio, a.r, w.waiters[a.r].anchor, a.e, a.budget);
  }

  lemma EnoughCapacity(cfg: Config)
    requires cfg.Valid() && cfg.burst <= cfg.gRps * cfg.maxLifetime
    ensures cfg.burst + Flow(cfg, cfg.maxLifetime) <= cfg.registryCapacity as real
  {
    CapacityCoversTheBucket(cfg);
  }

  lemma RoomAfterRefresh(cfg: Config, s: State, e: Env)
    requires cfg.Valid() && Inv(cfg, s) && Spaced(cfg, s) && s.lastWall <= e.wall
    requires cfg.burst <= cfg.gRps * cfg.maxLifetime
    requires OpenAreYoung(cfg, Refresh(cfg, s, e).st, e.wall)
    ensures |Refresh(cfg, s, e).st.grants| < cfg.registryCapacity
  {
    hide Refresh, Inv, Spaced, AllYoung, OpenAreYoung, Flow;
    EnoughCapacity(cfg);
    RefreshKeeps(cfg, s, e);
    RefreshSpaced(cfg, s, e);
    RefreshPaced(cfg, s, e);
    RefreshLeavesYoung(cfg, s, e);
    InvIds(cfg, Refresh(cfg, s, e).st);
    YoungRegistryIsSmall(cfg, Refresh(cfg, s, e).st, e.wall);
  }
}
