/**
 * The limiter as a protocol: any number of processes interleave transactions
 * on one durable document, die, reboot and fail to write, while history
 * variables remember what was granted, applied and tripped.
 */
module LimiterProtocol {
  import opened Basics
  import opened LimiterConfig
  import opened LimiterState
  import opened LimiterSpec
  import opened LimiterInvariants

  /** How a write ends: persisted; failed with the old file in place; failed although the new file is visible. */
  datatype Write = Persisted | Lost | Visible

  /** A process inside `acquire`, with the anchor it remembers once registered. */
  datatype Waiter = Waiter(prio: Prio, pid: Pid, anchor: Option<real>)

  /** A breaker trip: the grant that caused it, and whether it escalated the level. */
  datatype Trip = Trip(cause: Gid, bump: bool)

  datatype History = History(
    granted: set<Gid>,     // ids returned as GRANTED
    applied: set<Gid>,     // ids for which record_result returned APPLIED
    ok: set<Gid>,          // ids of the current epoch recorded OK
    trips: seq<Trip>,      // every trip, oldest first
    closers: seq<Gid>,     // ids whose success closed the breaker
    bumps: nat,            // escalating trips since the breaker was last closed
    limited: set<Gid>,     // probe ids whose own process released the witness while recording a rate limit
    crashed: set<Gid>,     // probe ids whose process died holding the witness
    known: set<Gid>,       // ids some witness pruner has read as terminal
    wallNow: real)         // latest wall reading of any transaction

  datatype World = World(
    st: State,
    boot: Boot,
    live: set<Pid>,
    locks: map<Gid, Pid>,
    files: set<Gid>,
    waiters: map<Rid, Waiter>,
    used: set<Rid>,
    h: History)

  datatype Action =
    | Spawn(p: Pid)
    | Die(p: Pid)
    | Reboot(b: Boot)
    | Enter(r: Rid, prio: Prio, p: Pid)
    | PollOnce(r: Rid, e: Env, budget: real, wr: Write)
    | GiveUp(r: Rid, e: Env, wr: Write)
    | Abort(r: Rid)
    | DropDemand(r: Rid, e: Env, wr: Write)
    | Prepare(g: Gid, e: Env, wr: Write)
    | Report(g: Gid, o: Outcome, e: Env, wr: Write)
    | Maintain(e: Env, wr: Write)
    | ScanTerminal
    | Unlink(g: Gid)
  {
    /** Does this step run a writing transaction? */
    predicate Writes() {
      PollOnce? || GiveUp? || DropDemand? || Prepare? || Report? || Maintain?
    }
  }

  function InitialHistory(wall: real): History {
    History({}, {}, {}, [], [], 0, {}, {}, {}, wall)
  }

  function InitialWorld(cfg: Config, wall: real, mono: real, boot: Boot): World {
    World(InitialState(cfg, wall, mono, boot), boot, {}, map[], {}, map[], {}, InitialHistory(wall))
  }

  // --------------------------------------------------------------- enabledness

  /**
   * What the operating system guarantees a transaction: DEAD is said of no
   * live process, a witness is reported free only when its file is gone or
   * nobody holds its lock, and leaked ids belong to requests that have ended.
   */
  predicate Sound(w: World, e: Env) {
    && e.boot == w.boot && e.pid in w.live
    && (forall p :: p in e.liveness && e.liveness[p] == DEAD ==> p !in w.live)
    && (w.st.breaker.probe.Some? && !e.witnessAlive ==>
          w.st.breaker.probe.value.holder !in w.files || w.st.breaker.probe.value.holder !in w.locks)
    && e.leaked !! w.waiters.Keys
  }

  predicate Enabled(w: World, a: Action) {
    match a
    case Spawn(p) => p !in w.live
    case Die(p) => p in w.live
    case Reboot(b) => b != w.boot
    case Enter(r, _, p) => r !in w.used && p in w.live
    case PollOnce(r, e, _, _) => r in w.waiters && e.pid == w.waiters[r].pid && Sound(w, e)
    case GiveUp(r, e, _) => r in w.waiters && e.pid == w.waiters[r].pid && Sound(w, e)
    case Abort(r) => r in w.waiters
    case DropDemand(r, e, _) => r in w.used && r !in w.waiters && Sound(w, e)
    case Prepare(_, e, _) => Sound(w, e)
    case Report(_, o, e, _) => Recordable(o) && Sound(w, e)
    case Maintain(e, _) => Sound(w, e)
    case ScanTerminal => true
    case Unlink(g) => g in w.h.known && g !in w.locks
  }

  // ------------------------------------------------------------------- history

  /** A refresh trips the breaker exactly when it finds the holder gone after its send marker. */
  function HistoryOfRefresh(s: State, e: Env, h: History): History {
    match s.breaker.probe
    case None => h
    case Some(p) =>
      if HolderGone(p, e) && p.marker then h.(trips := h.trips + [Trip(p.holder, false)], ok := {}) else h
  }

  function HistoryOfRecord(cfg: Config, s: State, g: Gid, o: Outcome, h: History): History
  {
    if !Open(s, g) || g.epoch != s.epoch then h
    else if o == RATE_LIMIT then h.(trips := h.trips + [Trip(g, true)], bumps := h.bumps + 1, ok := {})
    else if o == OK then
      if s.breaker.state == RECOVERY && s.breaker.streak + 1 >= cfg.recoveryTarget
      then h.(ok := h.ok + {g}, closers := h.closers + [g], bumps := 0)
      else h.(ok := h.ok + {g})
    else h
  }

  // --------------------------------------------------------------------- steps

  predicate Shows(t: Txn, wr: Write) { t.dirty && wr != Lost }

  /** A transaction fails when it had something to write and the write did not succeed. */
  predicate Fails(t: Txn, wr: Write) { t.dirty && wr != Persisted }

  function Commit(s: State, t: Txn, wr: Write): State {
    if Shows(t, wr) then t.st else s
  }

  function CommitHistory(h: History, h': History, t: Txn, wr: Write, wall: real): History {
    (if Shows(t, wr) then h' else h).(wallNow := wall)
  }

  function Unlock(locks: map<Gid, Pid>, g: Gid, p: Pid): map<Gid, Pid> {
    if g in locks && locks[g] == p then locks - {g} else locks
  }

  /** Resolving a dead probe lets go of this process's own handle, if it had one. */
  function LocksAfterRefresh(w: World, e: Env): map<Gid, Pid> {
    match w.st.breaker.probe
    case None => w.locks
    case Some(p) => if HolderGone(p, e) then Unlock(w.locks, p.holder, e.pid) else w.locks
  }

  /** A transaction that touches nothing but the document: its effect on the world. */
  function RunTxn(w: World, t: Txn, h': History, e: Env, wr: Write): World {
    w.(st := Commit(w.st, t, wr), h := CommitHistory(w.h, h', t, wr, e.wall), locks := LocksAfterRefresh(w, e))
  }

  function Without<K, V>(m: map<K, V>, k: K): map<K, V> { m - {k} }

  /** What becomes of the waiter, the witness and the history once a poll's transaction has ended. */
  function FinishPoll(w: World, r: Rid, q: Polled, e: Env, wr: Write): World
    requires r in w.waiters
  {
    var v := RunTxn(w, q.t, HistoryOfRefresh(w.st, e, w.h), e, wr);
    if Fails(q.t, wr) then
      // the witness file of a probe stays behind, its lock does not
      v.(waiters := Without(w.waiters, r),
         files := if q.result.Granted? && q.result.probe then w.files + {q.result.gid} else w.files)
    else
      match q.result
      case KeepWaiting => v.(waiters := w.waiters[r := w.waiters[r].(anchor := q.anchor)])
      case Granted(gid, probe) =>
        v.(waiters := Without(w.waiters, r),
           files := if probe then w.files + {gid} else w.files,
           locks := if probe then v.locks[gid := e.pid] else v.locks,
           h := v.h.(granted := v.h.granted + {gid}))
      case _ => v.(waiters := Without(w.waiters, r))
  }

  ghost function StepPoll(cfg: Config, w: World, r: Rid, e: Env, budget: real, wr: Write): World
    requires cfg.Valid() && r in w.waiters
  {
    FinishPoll(w, r, Poll(cfg, w.st, w.waiters[r].prio, r, w.waiters[r].anchor, e, budget), e, wr)
  }

  /** A trip lets go of the slot's witness before the write is attempted. */
  predicate LetsGo(s: State, result: RecordResult, g: Gid, o: Outcome) {
    result == APPLIED && o == RATE_LIMIT && g.epoch == s.epoch && s.breaker.probe.Some?
  }

  /** Witness locks and history once a report's transaction on the refreshed document s has ended. */
  function FinishReport(w: World, s: State, t: Txn, result: RecordResult, h': History, g: Gid, o: Outcome,
                        e: Env, wr: Write): World {
    var v := RunTxn(w, t, h', e, wr);
    var holder := if LetsGo(s, result, g, o) then s.breaker.probe.value.holder else g;
    var early := if LetsGo(s, result, g, o) then Unlock(v.locks, holder, e.pid) else v.locks;
    v.(locks := if Fails(t, wr) then early else Unlock(early, g, e.pid),
       h := v.h.(limited := if early != v.locks then v.h.limited + {holder} else v.h.limited,
                 applied := if result == APPLIED && !Fails(t, wr) then v.h.applied + {g} else v.h.applied))
  }

  function StepReport(cfg: Config, w: World, g: Gid, o: Outcome, e: Env, wr: Write): World
    requires cfg.Valid()
  {
    var t := Refresh(cfg, w.st, e);
    var (t', result) := Record(cfg, t, g, o, e.wall);
    var h' := HistoryOfRecord(cfg, t.st, g, o, HistoryOfRefresh(w.st, e, w.h));
    FinishReport(w, t.st, t', result, h', g, o, e, wr)
  }

  function Terminals(s: State): set<Gid> { set g | g in s.grants && s.grants[g].outcome != None }

  function Held(locks: map<Gid, Pid>, p: Pid): set<Gid> { set g | g in locks && locks[g] == p }

  ghost function Next(cfg: Config, w: World, a: Action): World
    requires cfg.Valid() && Enabled(w, a)
  {
    match a
    case Spawn(p) => w.(live := w.live + {p})
    case Die(p) =>
      w.(live := w.live - {p},
         locks := w.locks - Held(w.locks, p),
         waiters := map r | r in w.waiters && w.waiters[r].pid != p :: w.waiters[r],
         h := w.h.(crashed := w.h.crashed + Held(w.locks, p)))
    case Reboot(b) =>
      w.(boot := b, live := {}, locks := map[], waiters := map[], h := w.h.(crashed := w.h.crashed + w.locks.Keys))
    case Enter(r, prio, p) => w.(waiters := w.waiters[r := Waiter(prio, p, None)], used := w.used + {r})
    case PollOnce(r, e, budget, wr) => StepPoll(cfg, w, r, e, budget, wr)
    case GiveUp(r, e, wr) =>
      RunTxn(w, Drop(Refresh(cfg, w.st, e), r), HistoryOfRefresh(w.st, e, w.h), e, wr)
        .(waiters := Without(w.waiters, r))
    case Abort(r) => w.(waiters := Without(w.waiters, r))
    case DropDemand(r, e, wr) =>
      RunTxn(w, Drop(Refresh(cfg, w.st, e), r), HistoryOfRefresh(w.st, e, w.h), e, wr)
    case Prepare(g, e, wr) =>
      RunTxn(w, PrepareSend(Refresh(cfg, w.st, e), g).0, HistoryOfRefresh(w.st, e, w.h), e, wr)
    case Report(g, o, e, wr) => StepReport(cfg, w, g, o, e, wr)
    case Maintain(e, wr) => RunTxn(w, Refresh(cfg, w.st, e), HistoryOfRefresh(w.st, e, w.h), e, wr)
    case ScanTerminal => w.(h := w.h.(known := w.h.known + Terminals(w.st)))
    case Unlink(g) => w.(files := w.files - {g})
  }

  // ---------------------------------------------------------------------- runs

  /** A run: each world comes from the previous one by an enabled action. */
  ghost predicate Run(cfg: Config, ws: seq<World>, acts: seq<Action>) {
    && cfg.Valid()
    && |ws| == |acts| + 1
    && (exists wall, mono, boot :: ws[0] == InitialWorld(cfg, wall, mono, boot))
    && forall i :: 0 <= i < |acts| ==> Enabled(ws[i], acts[i]) && ws[i + 1] == Next(cfg, ws[i], acts[i])
  }
}
