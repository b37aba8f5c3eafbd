/**
 * What one transaction of the limiter does to the shared document, phase by
 * phase, as functions on values. LimiterDocument carries out the same phases
 * in place and is proved to compute exactly these results.
 */
module LimiterSpec {
  import opened Basics
  import opened LimiterConfig
  import opened LimiterState

  /** The document a first transaction creates. */
  function InitialState(cfg: Config, wall: real, mono: real, boot: Boot): State {
    State(wall, Some(mono), boot, 1, wall, 0, cfg.burst, 0, 0, 0.0, PerPrio(0, 0, 0, 0), map[], map[],
          Breaker(CLOSED, 0, 0.0, 0, 0, None))
  }

  // ------------------------------------------------------------- breaker trip

  /** Opens the breaker and starts a new epoch, which fences every outstanding grant. */
  function ApplyOpen(cfg: Config, s: State, wall: real, bump: bool): State
    requires cfg.Valid()
  {
    var level := if bump then Min(s.breaker.level + 1, |cfg.cooldowns|) else s.breaker.level;
    s.(epoch := s.epoch + 1,
       epochStart := wall,
       epochGrants := 0,
       usage := PerPrio(0, 0, 0, 0),
       breaker := s.breaker.(state := OPEN, level := level,
                             cooldownUntil := wall + cfg.CooldownFor(level), streak := 0, probe := None))
  }

  // ------------------------------------------------------------ refresh phases

  function DropLeaked(t: Txn, e: Env): Txn {
    Txn(t.st.(pending := t.st.pending - e.leaked), t.dirty || t.st.pending.Keys * e.leaked != {})
  }

  datatype ClockStep = Forward | Backward | Normal

  /** A wall movement is a step when it diverges from the monotonic clock by more than the cap. */
  function Classify(cfg: Config, s: State, e: Env): ClockStep {
    var dWall := e.wall - s.lastWall;
    match s.lastMono
    case None =>
      if dWall < 0.0 then Backward else if dWall > cfg.clockStepCap then Forward else Normal
    case Some(m) =>
      var skew := dWall - (e.mono - m);
      if skew > cfg.clockStepCap then Forward else if skew < -cfg.clockStepCap then Backward else Normal
  }

  /** Tokens credited for `delta` seconds: never past the burst ceiling. */
  function Applied(cfg: Config, tokens: real, delta: real): real {
    RMin(cfg.gRps * delta, RMax(0.0, cfg.burst - tokens))
  }

  /** A normal interval: ordinary elapsed time is credited, and not persisted on its own account. */
  function CreditElapsed(cfg: Config, s: State, e: Env): State {
    var delta := e.wall - s.lastWall;
    var credited :=
      if delta > 0.0 then
        var a := Applied(cfg, s.tokens, delta);
        s.(tokens := s.tokens + a, refillTotal := s.refillTotal + a, lastWall := e.wall)
      else s;
    credited.(lastMono := Some(e.mono))
  }

  function Rebaseline(s: State, e: Env): State {
    s.(lastWall := e.wall, lastMono := Some(e.mono))
  }

  function ClockRule(cfg: Config, t: Txn, e: Env): Txn
    requires cfg.Valid()
  {
    var s := t.st;
    if s.boot != e.boot then
      Txn(Rebaseline(s, e).(boot := e.boot), true)
    else
      match Classify(cfg, s, e)
      case Normal => Txn(CreditElapsed(cfg, s, e), t.dirty)
      case Backward => Txn(Rebaseline(s, e), true)
      case Forward =>
        var b := s.breaker;
        var armed := if b.state == OPEN
                     then b.(cooldownUntil := RMax(b.cooldownUntil, e.wall + cfg.CooldownFor(b.level)))
                     else b;
        Txn(Rebaseline(s, e).(breaker := armed), true)
  }

  /** A pending demand that has lapsed, belongs to another boot, or whose owner is provably dead. */
  predicate Lapsed(d: Demand, e: Env) {
    d.expireWall < e.wall || d.boot != e.boot || e.ProvablyDead(d.pid)
  }

  function PrunePending(t: Txn, e: Env): Txn {
    var kept := map r | r in t.st.pending && !Lapsed(t.st.pending[r], e) :: t.st.pending[r];
    Txn(t.st.(pending := kept), t.dirty || kept != t.st.pending)
  }

  /** The neutral outcome of a grant whose owner died: UNKNOWN once a send may have happened. */
  function OrphanOutcome(sent: bool): Outcome {
    if sent then UNKNOWN else NOT_SENT
  }

  function CloseGrant(grants: map<Gid, Grant>, g: Gid, o: Outcome): map<Gid, Grant> {
    if g in grants && grants[g].outcome == None then grants[g := grants[g].(outcome := Some(o))] else grants
  }

  /** The holder is provably gone. With a send marker the breaker reopens at its level, in a new epoch. */
  function ResolveDeadProbe(cfg: Config, s: State, p: Probe, wall: real): State
    requires cfg.Valid()
  {
    var closed := s.(grants := CloseGrant(s.grants, p.holder, OrphanOutcome(p.marker)),
                     breaker := s.breaker.(probe := None));
    if p.marker then
      var o := ApplyOpen(cfg, closed, wall, false);
      o.(breaker := o.breaker.(unknownCount := o.breaker.unknownCount + 1))
    else
      closed
  }

  /** The only condition under which the recovery slot is freed without its holder. */
  predicate HolderGone(p: Probe, e: Env) {
    p.boot != e.boot || !e.witnessAlive
  }

  function ProbePhase(cfg: Config, t: Txn, e: Env): Txn
    requires cfg.Valid()
  {
    match t.st.breaker.probe
    case None => t
    case Some(p) =>
      if HolderGone(p, e) then
        Txn(ResolveDeadProbe(cfg, t.st, p, e.wall), true)
      else if e.wall >= p.stallUntil && !p.stalled then
        Txn(t.st.(breaker := t.st.breaker.(probe := Some(p.(stalled := true)))), true)
      else t
  }

  function CooldownPhase(t: Txn, e: Env): Txn {
    var b := t.st.breaker;
    if b.state == OPEN && e.wall >= b.cooldownUntil then
      Txn(t.st.(breaker := b.(state := RECOVERY, probe := None, streak := 0)), true)
    else t
  }

  /** An open ordinary grant whose owner is provably dead; probes belong to the witness path. */
  predicate Orphaned(g: Grant, e: Env) {
    g.outcome == None && !g.probe && (g.boot != e.boot || e.ProvablyDead(g.pid))
  }

  function Reconciled(g: Grant, e: Env): Grant {
    if Orphaned(g, e) then g.(outcome := Some(OrphanOutcome(g.sent))) else g
  }

  function ReconcilePhase(t: Txn, e: Env): Txn {
    var grants := map g | g in t.st.grants :: Reconciled(t.st.grants[g], e);
    Txn(t.st.(grants := grants), t.dirty || grants != t.st.grants)
  }

  /** Only terminal records past the replay window leave the registry. */
  predicate Expired(cfg: Config, g: Grant, e: Env) {
    g.outcome != None && e.wall - g.issuedWall >= cfg.maxLifetime
  }

  function EvictPhase(cfg: Config, t: Txn, e: Env): Txn {
    var kept := map g | g in t.st.grants && !Expired(cfg, t.st.grants[g], e) :: t.st.grants[g];
    Txn(t.st.(grants := kept), t.dirty || kept != t.st.grants)
  }

  /** The maintenance every writing transaction begins with. */
  function Refresh(cfg: Config, s: State, e: Env): Txn
    requires cfg.Valid()
  {
    var t1 := ClockRule(cfg, DropLeaked(Txn(s, false), e), e);
    var t2 := ProbePhase(cfg, PrunePending(t1, e), e);
    EvictPhase(cfg, ReconcilePhase(CooldownPhase(t2, e), e), e)
  }

  // ----------------------------------------------------------------- selection

  /** FIFO key order: registration wall, then request id. */
  predicate Before(d: Demand, r: Rid, d': Demand, r': Rid) {
    d.registeredWall < d'.registeredWall || (d.registeredWall == d'.registeredWall && r < r')
  }

  ghost predicate IsHead(pending: map<Rid, Demand>, p: Prio, r: Rid) {
    && r in pending && pending[r].prio == p
    && forall r' :: r' in pending && pending[r'].prio == p && r' != r ==> Before(pending[r], r, pending[r'], r')
  }

  ghost predicate Backlogged(pending: map<Rid, Demand>, p: Prio) {
    exists r :: r in pending && pending[r].prio == p
  }

  ghost function HeadOf(pending: map<Rid, Demand>, p: Prio): Option<Rid> {
    if exists r :: IsHead(pending, p, r) then
      var r :| IsHead(pending, p, r); Some(r)
    else None
  }

  function Elapsed(s: State, wall: real): real {
    RMax(0.0, wall - s.epochStart)
  }

  /** The class's curve at this wall: its rate over the epoch so far plus its credit. */
  function Allowance(cfg: Config, s: State, p: Prio, wall: real): real
    requires cfg.Valid()
  {
    cfg.Share(p) * Elapsed(s, wall) + cfg.Credit(p)
  }

  predicate Eligible(cfg: Config, s: State, p: Prio, wall: real)
    requires cfg.Valid()
  {
    s.usage.At(p) as real <= Allowance(cfg, s, p, wall)
  }

  ghost predicate Servable(cfg: Config, s: State, p: Prio, wall: real)
    requires cfg.Valid()
  {
    HeadOf(s.pending, p).Some? && Eligible(cfg, s, p, wall)
  }

  ghost function BestEligible(cfg: Config, s: State, wall: real): Option<(Prio, Rid)>
    requires cfg.Valid()
  {
    if Servable(cfg, s, P0, wall) then Some((P0, HeadOf(s.pending, P0).value))
    else if Servable(cfg, s, P1, wall) then Some((P1, HeadOf(s.pending, P1).value))
    else if Servable(cfg, s, P2, wall) then Some((P2, HeadOf(s.pending, P2).value))
    else if Servable(cfg, s, P3, wall) then Some((P3, HeadOf(s.pending, P3).value))
    else None
  }

  ghost function Waiting(s: State, p: Prio): nat {
    if HeadOf(s.pending, p).Some? then 1 else 0
  }

  /** How many classes have a waiter. */
  ghost function WaitingClasses(s: State): nat {
    Waiting(s, P0) + Waiting(s, P1) + Waiting(s, P2) + Waiting(s, P3)
  }

  /** A class may borrow only if one token remains for every other waiting class. */
  ghost predicate CanBorrow(s: State, p: Prio) {
    HeadOf(s.pending, p).Some? && s.tokens - 1.0 >= WaitingClasses(s) as real - 1.0
  }

  /** Usage measured against the class's own curve. */
  function Ratio(cfg: Config, s: State, p: Prio, wall: real): real
    requires cfg.Valid()
  {
    s.usage.At(p) as real / RMax(Allowance(cfg, s, p, wall), 0.000000001)
  }

  /** p is the least over its curve among the possible borrowers; priority breaks ties. */
  ghost predicate IsBorrower(cfg: Config, s: State, p: Prio, wall: real)
    requires cfg.Valid()
  {
    && CanBorrow(s, p)
    && forall q :: CanBorrow(s, q) && q != p ==>
         || Ratio(cfg, s, p, wall) < Ratio(cfg, s, q, wall)
         || (Ratio(cfg, s, p, wall) == Ratio(cfg, s, q, wall) && Rank(p) < Rank(q))
  }

  ghost function BorrowCandidate(cfg: Config, s: State, wall: real): Option<(Prio, Rid)>
    requires cfg.Valid()
  {
    if exists p :: IsBorrower(cfg, s, p, wall) then
      var p :| IsBorrower(cfg, s, p, wall); Some((p, HeadOf(s.pending, p).value))
    else None
  }

  /** The one request whose turn it is. */
  ghost function Winner(cfg: Config, s: State, wall: real): Option<(Prio, Rid)>
    requires cfg.Valid()
  {
    var best := BestEligible(cfg, s, wall);
    if best.Some? then best else BorrowCandidate(cfg, s, wall)
  }

  // --------------------------------------------------------------------- grant

  datatype Refusal = PendingCapacity | RegistryCapacity | WitnessFailed

  datatype GrantTry = NoGrant | Refused(why: Refusal) | Issued(gid: Gid, probe: bool)

  /** Everything but the turn itself: a token, a free slot in recovery, the request's turn. */
  ghost predicate MayGrant(cfg: Config, s: State, p: Prio, r: Rid, wall: real)
    requires cfg.Valid()
  {
    && s.tokens >= 1.0
    && (s.breaker.state == RECOVERY ==> s.breaker.probe == None)
    && Winner(cfg, s, wall) == Some((p, r))
  }

  function NextGid(s: State): Gid { Gid(s.epoch, s.lastNum + 1) }

  /** The one transition that spends a token: registry, counters, slot and queue move together. */
  function Issue(cfg: Config, s: State, p: Prio, r: Rid, e: Env): State {
    var gid := NextGid(s);
    var recovery := s.breaker.state == RECOVERY;
    s.(lastNum := s.lastNum + 1,
       tokens := s.tokens - 1.0,
       usage := s.usage.Put(p, s.usage.At(p) + 1),
       epochGrants := s.epochGrants + 1,
       totalGrants := s.totalGrants + 1,
       grants := s.grants[gid := Grant(p, e.wall, None, recovery, e.pid, e.boot, false)],
       breaker := if recovery
                  then s.breaker.(probe := Some(Probe(gid, e.pid, e.boot, e.wall + cfg.probeLease, false, false)))
                  else s.breaker,
       pending := s.pending - {r})
  }

  ghost function TryGrant(cfg: Config, s: State, p: Prio, r: Rid, e: Env): GrantTry
    requires cfg.Valid()
  {
    if !MayGrant(cfg, s, p, r, e.wall) then NoGrant
    else if |s.grants| >= cfg.registryCapacity then Refused(RegistryCapacity)
    else if s.breaker.state == RECOVERY && e.witnessFails then Refused(WitnessFailed)
    else Issued(NextGid(s), s.breaker.state == RECOVERY)
  }

  // ------------------------------------------------------------------- acquire

  datatype Registration =
    | Registered(t: Txn, anchor: real)
    | Stale
    | Full

  /** First registration, re-registration under the original anchor, or renewal of the liveness window. */
  function Register(cfg: Config, t: Txn, p: Prio, r: Rid, anchor: Option<real>, e: Env): Registration {
    var pending := t.st.pending;
    match anchor
    case None =>
      if |pending| >= cfg.pendingCapacity then Full
      else
        var d := Demand(p, e.pid, e.boot, e.wall, RMin(e.wall + cfg.demandTtl, e.wall + cfg.livenessTtl));
        Registered(Txn(t.st.(pending := pending[r := d]), true), e.wall)
    case Some(a) =>
      if r !in pending then
        if e.wall - a >= cfg.demandTtl then Stale
        else if |pending| >= cfg.pendingCapacity then Full
        else
          var d := Demand(p, e.pid, e.boot, a, RMin(a + cfg.demandTtl, e.wall + cfg.livenessTtl));
          Registered(Txn(t.st.(pending := pending[r := d]), true), a)
      else if pending[r].expireWall - e.wall < cfg.livenessTtl / 2.0 then
        var d := pending[r].(expireWall := RMin(pending[r].registeredWall + cfg.demandTtl, e.wall + cfg.livenessTtl));
        Registered(Txn(t.st.(pending := pending[r := d]), true), a)
      else
        Registered(t, a)
  }

  function Drop(t: Txn, r: Rid): Txn {
    if r in t.st.pending then Txn(t.st.(pending := t.st.pending - {r}), true) else t
  }

  datatype PollResult =
    | Granted(gid: Gid, probe: bool)
    | KeepWaiting
    | BreakerIsOpen
    | CooldownExceedsDeadline
    | DemandExpired
    | Raised(why: Refusal)

  /** One loop transaction of `acquire`; `anchor` is None until the request is registered. */
  datatype Polled = Polled(t: Txn, result: PollResult, anchor: Option<real>)

  ghost function Select(cfg: Config, t: Txn, p: Prio, r: Rid, anchor: real, e: Env, budget: real): Polled
    requires cfg.Valid()
  {
    var b := t.st.breaker;
    if b.state == OPEN then
      if p == P3 then Polled(Drop(t, r), BreakerIsOpen, Some(anchor))
      else if RMax(0.0, b.cooldownUntil - e.wall) >= budget then
        Polled(Drop(t, r), CooldownExceedsDeadline, Some(anchor))
      else Polled(t, KeepWaiting, Some(anchor))
    else
      match TryGrant(cfg, t.st, p, r, e)
      case NoGrant => Polled(t, KeepWaiting, Some(anchor))
      case Refused(why) => Polled(t, Raised(why), Some(anchor))
      case Issued(gid, probe) => Polled(Txn(Issue(cfg, t.st, p, r, e), true), Granted(gid, probe), Some(anchor))
  }

  ghost function Poll(cfg: Config, s: State, p: Prio, r: Rid, anchor: Option<real>, e: Env, budget: real): Polled
    requires cfg.Valid()
  {
    var t := Refresh(cfg, s, e);
    match Register(cfg, t, p, r, anchor, e)
    case Full => Polled(t, Raised(PendingCapacity), anchor)
    case Stale => Polled(Drop(t, r), DemandExpired, anchor)
    case Registered(t', a) => Select(cfg, t', p, r, a, e, budget)
  }

  // -------------------------------------------------------- prepare and record

  function MarkSent(s: State, g: Gid): State
    requires g in s.grants
  {
    s.(grants := s.grants[g := s.grants[g].(sent := true)])
  }

  function MarkProbe(s: State): State
    requires s.breaker.probe.Some?
  {
    s.(breaker := s.breaker.(probe := Some(s.breaker.probe.value.(marker := true))))
  }

  predicate HoldsSlot(s: State, g: Gid) {
    s.breaker.probe.Some? && s.breaker.probe.value.holder == g
  }

  /** The pre-send fence on a refreshed document; false means nothing may be sent. */
  function PrepareSend(t: Txn, g: Gid): (Txn, bool) {
    var s := t.st;
    if g !in s.grants then (Txn(s, true), false)
    else if s.grants[g].outcome != None then (t, false)
    else if g.epoch != s.epoch || (s.grants[g].probe && !HoldsSlot(s, g)) then
      (Txn(s.(grants := CloseGrant(s.grants, g, REVOKED)), true), false)
    else
      var t1 := if s.grants[g].probe && !s.breaker.probe.value.marker then Txn(MarkProbe(s), true) else t;
      var t2 := if s.grants[g].sent then t1 else Txn(MarkSent(t1.st, g), true);
      (t2, true)
  }

  datatype RecordResult = APPLIED | DUPLICATE | UNKNOWN_GRANT

  function FreeSlot(s: State, g: Gid): State {
    if HoldsSlot(s, g) then s.(breaker := s.breaker.(probe := None)) else s
  }

  /** One more success of the current epoch; the target closes the breaker. */
  function CountSuccess(cfg: Config, s: State): State {
    var n := s.breaker.streak + 1;
    if s.breaker.state == RECOVERY && n >= cfg.recoveryTarget
    then s.(breaker := s.breaker.(state := CLOSED, level := 0, streak := 0))
    else s.(breaker := s.breaker.(streak := n))
  }

  /** What an outcome just written for g does to the breaker. */
  function ApplyOutcome(cfg: Config, s: State, g: Gid, o: Outcome, wall: real): State
    requires cfg.Valid()
  {
    if o == RATE_LIMIT then
      if g.epoch != s.epoch then s else ApplyOpen(cfg, s, wall, true)
    else if o == OK then
      if g.epoch != s.epoch then s else CountSuccess(cfg, FreeSlot(s, g))
    else FreeSlot(s, g)
  }

  /** Exactly-once recording on a refreshed document. */
  function Record(cfg: Config, t: Txn, g: Gid, o: Outcome, wall: real): (Txn, RecordResult)
    requires cfg.Valid()
  {
    var s := t.st;
    if g !in s.grants then (Txn(s, true), UNKNOWN_GRANT)
    else if s.grants[g].outcome != None then (t, DUPLICATE)
    else (Txn(ApplyOutcome(cfg, s.(grants := CloseGrant(s.grants, g, o)), g, o, wall), true), APPLIED)
  }
}
