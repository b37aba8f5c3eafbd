/** The shared limiter's configuration contract. */
module LimiterConfig {
  import opened Basics

  /** The part of rate g that weight w earns out of the total weight t. */
  function Portion(g: real, w: real, t: real): real
    requires t > 0.0
  {
    g * w / t
  }

  datatype Config = Config(
    gRps: real,
    burst: real,
    weights: PerPrio<real>,
    creditK: real,
    demandTtl: real,
    pendingCapacity: int,
    cooldowns: seq<real>,
    recoveryTarget: int,
    probeLease: real,
    clockStepCap: real,
    registryCapacity: int,
    maxLifetime: real,
    maxWait: real,
    livenessTtl: real,
    recordRetryAttempts: int,
    recordRetryBackoff: real)
  {
    function TotalWeight(): real {
      weights.p0 + weights.p1 + weights.p2 + weights.p3
    }

    /** What construction accepts; anything else raises ValueError. */
    predicate Valid() {
      && gRps > 0.0
      && burst >= 1.0
      && (forall p: Prio :: weights.At(p) > 0.0)
      && |cooldowns| >= 1 && (forall i :: 0 <= i < |cooldowns| ==> cooldowns[i] >= 0.0)
      && recoveryTarget >= 1
      && maxLifetime > 0.0
      && maxWait > 0.0
      && demandTtl > 0.0
      && livenessTtl > 0.0
      && recordRetryAttempts >= 1
      && recordRetryBackoff >= 0.0
      && registryCapacity >= Ceil(2.0 * gRps * maxLifetime)
    }

    lemma WeightsPositive()
      requires Valid()
      ensures weights.p0 > 0.0 && weights.p1 > 0.0 && weights.p2 > 0.0 && weights.p3 > 0.0
      ensures TotalWeight() > 0.0
    {
      assert weights.At(P0) > 0.0 && weights.At(P1) > 0.0 && weights.At(P2) > 0.0 && weights.At(P3) > 0.0;
    }

    /** Rate of class p: its weight's part of the sustained rate. */
    function Share(p: Prio): real
      requires Valid()
    {
      WeightsPositive();
      Portion(gRps, weights.At(p), TotalWeight())
    }

    /** Eligibility credit of class p, in requests. */
    function Credit(p: Prio): real
      requires Valid()
    {
      creditK * Share(p)
    }

    /** Cooldown of an escalation level: 0 and 1 take the first rung, levels past the ladder the last. */
    function CooldownFor(level: int): (c: real)
      requires Valid()
      ensures c >= 0.0
    {
      cooldowns[Min(Max(level - 1, 0), |cooldowns| - 1)]
    }
  }

  /**
   * Every class gets the rate of its own weight: shares are to the sustained
   * rate as weights are to their sum, so splitting neither creates nor loses
   * rate and starves no class; the credits follow the shares.
   */
  lemma SharesPartitionTheRate(cfg: Config)
    requires cfg.Valid()
    ensures cfg.Share(P0) + cfg.Share(P1) + cfg.Share(P2) + cfg.Share(P3) == cfg.gRps
    ensures forall p :: cfg.Share(p) > 0.0
    ensures var total := cfg.weights.p0 + cfg.weights.p1 + cfg.weights.p2 + cfg.weights.p3;
            && cfg.Share(P0) * total == cfg.gRps * cfg.weights.p0 && cfg.Share(P1) * total == cfg.gRps * cfg.weights.p1
            && cfg.Share(P2) * total == cfg.gRps * cfg.weights.p2 && cfg.Share(P3) * total == cfg.gRps * cfg.weights.p3
    ensures forall p :: cfg.Credit(p) == cfg.creditK * cfg.Share(p)
  {
    cfg.WeightsPositive();
    PortionTimesTotal(cfg.gRps, cfg.weights.p0, cfg.TotalWeight());
    PortionTimesTotal(cfg.gRps, cfg.weights.p1, cfg.TotalWeight());
    PortionTimesTotal(cfg.gRps, cfg.weights.p2, cfg.TotalWeight());
    PortionTimesTotal(cfg.gRps, cfg.weights.p3, cfg.TotalWeight());
    hide Portion;
    PortionsSum(cfg.gRps, cfg.weights.p0, cfg.weights.p1, cfg.weights.p2, cfg.weights.p3);
    forall p ensures cfg.Share(p) > 0.0 {
      SharePositive(cfg, p);
    }
  }

  lemma PortionTimesTotal(g: real, w: real, t: real)
    requires t > 0.0
    ensures Portion(g, w, t) * t == g * w
  {
    assert (g * w / t) * t == g * w;
  }

  lemma SharePositive(cfg: Config, p: Prio)
    requires cfg.Valid()
    ensures cfg.Share(p) > 0.0
  {
    cfg.WeightsPositive();
    assert cfg.weights.At(p) > 0.0;
    PositiveQuotient(cfg.gRps * cfg.weights.At(p), cfg.TotalWeight());
  }

  lemma PortionsSum(g: real, a: real, b: real, c: real, d: real)
    requires a + b + c + d > 0.0
    ensures var t := a + b + c + d;
            Portion(g, a, t) + Portion(g, b, t) + Portion(g, c, t) + Portion(g, d, t) == g
  {
    var t := a + b + c + d;
    SumOfQuotients(g * a, g * b, g * c, g * d, t);
    Distribute(g, a, b, c, d);
    assert g * t / t == g;
  }

  lemma Distribute(g: real, a: real, b: real, c: real, d: real)
    ensures g * a + g * b + g * c + g * d == g * (a + b + c + d)
  {
  }

  lemma SumOfQuotients(a: real, b: real, c: real, d: real, t: real)
    requires t > 0.0
    ensures a / t + b / t + c / t + d / t == (a + b + c + d) / t
  {
    assert a / t + b / t == (a + b) / t;
    assert c / t + d / t == (c + d) / t;
  }

  lemma PositiveQuotient(a: real, b: real)
    requires a > 0.0 && b > 0.0
    ensures a / b > 0.0
  {
    assert (a / b) * b == a;
  }

  /**
   * The retention rule in terms of the bucket: with a burst of at most G*L,
   * everything the bucket can issue in a window of length L fits the registry.
   */
  lemma CapacityCoversTheBucket(cfg: Config)
    requires cfg.Valid()
    requires cfg.burst <= cfg.gRps * cfg.maxLifetime
    ensures cfg.burst + cfg.gRps * cfg.maxLifetime <= cfg.registryCapacity as real
  {
    var gl := cfg.gRps * cfg.maxLifetime;
    assert 2.0 * cfg.gRps * cfg.maxLifetime == gl + gl;
  }
}
