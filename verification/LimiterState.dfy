/** The durable document every process shares, and what a transaction reads around it. */
module LimiterState {
  import opened Basics

  type Pid = int
  /** A per-boot identifier; only equality matters. */
  type Boot = nat
  /** A request id: 32 hexadecimal digits, so text order is numeric order. */
  type Rid = nat

  /** A grant id, written "e<epoch>:<seq>" (module GrantIds has the text form). */
  datatype Gid = Gid(epoch: nat, num: nat)

  datatype BreakerState = CLOSED | OPEN | RECOVERY

  datatype Outcome = OK | RATE_LIMIT | TIMEOUT | AUTH | ERROR | NOT_SENT | REVOKED | UNKNOWN

  /** The outcomes a caller may record; UNKNOWN is written only by the limiter itself. */
  predicate Recordable(o: Outcome) { o != UNKNOWN }

  /** A waiting request in the shared pending registry. */
  datatype Demand = Demand(prio: Prio, pid: Pid, boot: Boot, registeredWall: real, expireWall: real)

  /** One registry record; outcome None means the grant is still open. */
  datatype Grant = Grant(
    prio: Prio, issuedWall: real, outcome: Option<Outcome>, probe: bool, pid: Pid, boot: Boot, sent: bool)

  /** The recovery slot. Its witness file is named after the holder. */
  datatype Probe = Probe(holder: Gid, pid: Pid, boot: Boot, stallUntil: real, marker: bool, stalled: bool)

  datatype Breaker = Breaker(
    state: BreakerState, level: nat, cooldownUntil: real, streak: nat, unknownCount: nat, probe: Option<Probe>)

  datatype State = State(
    lastWall: real,
    lastMono: Option<real>,
    boot: Boot,
    epoch: nat,
    epochStart: real,
    lastNum: nat,
    tokens: real,
    totalGrants: nat,
    epochGrants: nat,
    refillTotal: real,
    usage: PerPrio<nat>,
    pending: map<Rid, Demand>,
    grants: map<Gid, Grant>,
    breaker: Breaker)

  /** The working copy of one transaction: it is written back only when dirty. */
  datatype Txn = Txn(st: State, dirty: bool)

  /** Answer of the owner-liveness check; UNKNOWN is never treated as DEAD. */
  datatype PidState = ALIVE | DEAD | UNSURE

  /**
   * Everything one transaction observes outside the document: one reading of
   * each clock, the boot, the running process, the liveness answers, the
   * answer of the witness-lock test for the current probe, whether taking a
   * new witness lock fails, and this instance's leaked request ids.
   */
  datatype Env = Env(
    wall: real,
    mono: real,
    boot: Boot,
    pid: Pid,
    liveness: map<Pid, PidState>,
    witnessAlive: bool,
    witnessFails: bool,
    leaked: set<Rid>)
  {
    /** Provably dead: not this process, and the check answered DEAD. */
    predicate ProvablyDead(p: Pid) {
      p != pid && p in liveness && liveness[p] == DEAD
    }
  }
}
