/**
 * The timed emitter: a countdown that, when it runs out, appends one jittered
 * particle to the list it shares with its particle system and restarts from a
 * period derived from the spawn rate.
 */
module Spawning {
  import opened VectorMath
  import opened Particles

  /**
   * The random draws one Update may consume, in the order the source draws
   * them: three for the position, three for the direction, one for the speed,
   * one for the lifetime (all in CreateParticle), then one for the spawn rate.
   */
  datatype SpawnSamples = SpawnSamples(position: Vec3, direction: Vec3, speed: real,
                                       timeToLive: real, spawnRate: real)

  predicate InUnitRange(r: real) {
    -1.0 <= r <= 1.0
  }

  predicate UnitVec(v: Vec3) {
    InUnitRange(v.x) && InUnitRange(v.y) && InUnitRange(v.z)
  }

  /** Every draw lies in [-1, 1], as GetRandomValue(-1, 1) promises. */
  predicate Bounded(r: SpawnSamples) {
    UnitVec(r.position) && UnitVec(r.direction) && InUnitRange(r.speed)
    && InUnitRange(r.timeToLive) && InUnitRange(r.spawnRate)
  }

  /** The public tuning fields of a spawner. */
  datatype SpawnerConfig = SpawnerConfig(
    position: Vec3, pVariance: real,
    direction: Vec3, dVariance: real,
    velocity: real, vVariance: real,
    spawnRate: real, srVariance: real,
    timeToLive: real, ttlVariance: real)

  /** The configuration a spawner starts with, around a given emitter position. */
  function DefaultConfig(position: Vec3): SpawnerConfig {
    SpawnerConfig(position, 0.0, Vec3(0.0, 1.0, 0.0), 0.0, 10.0, 0.0, 1.0, 0.0, 1.0, 0.0)
  }

  /** base + variance * r on each axis. */
  function Jittered(base: Vec3, variance: real, r: Vec3): Vec3 {
    Vec3(base.x + variance * r.x, base.y + variance * r.y, base.z + variance * r.z)
  }

  /** The state CreateParticle gives a new particle, from the configuration and the draws. */
  function SpawnedState(c: SpawnerConfig, r: SpawnSamples, normalize: Vec3 -> Vec3): ParticleState {
    ParticleState(
      Jittered(c.position, c.pVariance, r.position),
      Scale(normalize(Jittered(c.direction, c.dVariance, r.direction)), c.velocity + c.vVariance * r.speed),
      c.timeToLive + c.ttlVariance * r.timeToLive)
  }

  lemma ScaledSampleBounded(variance: real, r: real)
    requires variance >= 0.0 && InUnitRange(r)
    ensures -variance <= variance * r <= variance
  {
    assert variance * r <= variance * 1.0;
    assert variance * (-1.0) <= variance * r;
  }

  /** One jittered axis lies within variance of its base. */
  lemma JitteredAxisWithin(base: real, variance: real, r: real)
    requires variance >= 0.0 && InUnitRange(r)
    ensures base - variance <= base + variance * r <= base + variance
  {
    ScaledSampleBounded(variance, r);
  }

  /** A jittered vector lies within variance of its base on every axis. */
  lemma JitteredWithinVariance(base: Vec3, variance: real, r: Vec3)
    requires variance >= 0.0 && UnitVec(r)
    ensures var p := Jittered(base, variance, r);
            && base.x - variance <= p.x <= base.x + variance
            && base.y - variance <= p.y <= base.y + variance
            && base.z - variance <= p.z <= base.z + variance
  {
    var p := Jittered(base, variance, r);
    JitteredAxisWithin(base.x, variance, r.x);
    assert p.x == base.x + variance * r.x;
    JitteredAxisWithin(base.y, variance, r.y);
    assert p.y == base.y + variance * r.y;
    JitteredAxisWithin(base.z, variance, r.z);
    assert p.z == base.z + variance * r.z;
  }

  /** With draws in [-1, 1] each position axis lies within m_pVariance of the emitter. */
  lemma SpawnedPositionWithinVariance(c: SpawnerConfig, r: SpawnSamples, normalize: Vec3 -> Vec3)
    requires c.pVariance >= 0.0 && Bounded(r)
    ensures var p := SpawnedState(c, r, normalize).position;
            && c.position.x - c.pVariance <= p.x <= c.position.x + c.pVariance
            && c.position.y - c.pVariance <= p.y <= c.position.y + c.pVariance
            && c.position.z - c.pVariance <= p.z <= c.position.z + c.pVariance
  {
    JitteredWithinVariance(c.position, c.pVariance, r.position);
  }

  /** Without variances a new particle starts exactly at the emitter with the configured lifetime. */
  lemma SpawnedWithoutVariance(c: SpawnerConfig, r: SpawnSamples, normalize: Vec3 -> Vec3)
    requires c.pVariance == 0.0 && c.ttlVariance == 0.0
    ensures SpawnedState(c, r, normalize).position == c.position
    ensures SpawnedState(c, r, normalize).timeToLive == c.timeToLive
  {
  }

  /** With draws in [-1, 1] the lifetime lies within m_ttlVariance of m_timeToLive. */
  lemma SpawnedLifetimeWithinVariance(c: SpawnerConfig, r: SpawnSamples, normalize: Vec3 -> Vec3)
    requires c.ttlVariance >= 0.0 && Bounded(r)
    ensures c.timeToLive - c.ttlVariance <= SpawnedState(c, r, normalize).timeToLive
                                        <= c.timeToLive + c.ttlVariance
  {
    ScaledSampleBounded(c.ttlVariance, r.timeToLive);
    assert SpawnedState(c, r, normalize).timeToLive == c.timeToLive + c.ttlVariance * r.timeToLive;
  }

  /**
   * The countdown set after a spawn: 1 / (rate + variance), where a variance
   * that would make the sum zero or negative is replaced by -rate + 0.01.
   */
  function SpawnPeriod(spawnRate: real, srVariance: real, sample: real): (period: real)
    ensures period > 0.0
  {
    var variance := srVariance * sample;
    var variance' := if variance <= -spawnRate then -spawnRate + 0.01 else variance;
    1.0 / (spawnRate + variance')
  }

  /** Without rate variance and with a positive rate the period is exactly 1 / rate. */
  lemma SpawnPeriodWithoutVariance(spawnRate: real, sample: real)
    requires spawnRate > 0.0
    ensures SpawnPeriod(spawnRate, 0.0, sample) == 1.0 / spawnRate
  {
  }

  /** One countdown step: whether a particle is emitted, and the next countdown. */
  function Tick(countdown: real, dt: real, c: SpawnerConfig, sample: real): (bool, real) {
    var t := countdown - dt;
    if t <= 0.0 then (true, SpawnPeriod(c.spawnRate, c.srVariance, sample)) else (false, t)
  }

  /** Number of particles emitted over n countdown steps. */
  function SpawnsOver(countdown: real, dt: real, c: SpawnerConfig, n: nat): nat
    decreases n
  {
    if n == 0 then 0
    else
      var (spawned, next) := Tick(countdown, dt, c, 0.0);
      (if spawned then 1 else 0) + SpawnsOver(next, dt, c, n - 1)
  }

  /**
   * Spawn cadence: without rate variance, stepping a new spawner (countdown 0)
   * n times by dt = 1 / rate emits exactly n particles.
   */
  lemma {:induction false} CadenceAtRate(c: SpawnerConfig, countdown: real, n: nat)
    requires c.spawnRate > 0.0 && c.srVariance == 0.0
    requires countdown == 0.0 || countdown == 1.0 / c.spawnRate
    ensures SpawnsOver(countdown, 1.0 / c.spawnRate, c, n) == n
    decreases n
  {
    if n > 0 {
      var dt := 1.0 / c.spawnRate;
      SpawnPeriodWithoutVariance(c.spawnRate, 0.0);
      assert countdown - dt <= 0.0;
      CadenceAtRate(c, dt, n - 1);
    }
  }

  /** The particle vector the spawner and its particle system share (m_particles). */
  class ParticleList {
    var items: seq<Particle>

    constructor ()
      ensures items == []
    {
      items := [];
    }
  }

  class ParticleSpawner {
    var position: Vec3
    var pVariance: real
    var direction: Vec3
    var dVariance: real
    var velocity: real
    var vVariance: real
    var spawnRate: real
    var srVariance: real
    var timeToLive: real
    var ttlVariance: real

    /** m_particleList: a reference to the owning system's vector. */
    const particleList: ParticleList
    /** m_actualSpawnTime: seconds until the next spawn. */
    var actualSpawnTime: real

    function Config(): SpawnerConfig
      reads this
    {
      SpawnerConfig(position, pVariance, direction, dVariance, velocity, vVariance,
                    spawnRate, srVariance, timeToLive, ttlVariance)
    }

    constructor (position: Vec3, particleList: ParticleList)
      ensures this.particleList == particleList
      ensures Config() == DefaultConfig(position)
      ensures actualSpawnTime == 0.0
    {
      this.position := position;
      pVariance := 0.0;
      direction := Vec3(0.0, 1.0, 0.0);
      dVariance := 0.0;
      velocity := 10.0;
      vVariance := 0.0;
      spawnRate := 1.0;
      srVariance := 0.0;
      timeToLive := 1.0;
      ttlVariance := 0.0;
      this.particleList := particleList;
      actualSpawnTime := 0.0;
    }

    /**
     * Counts down by deltaTime; at or below zero emits one particle, however
     * far below zero the countdown went, and restarts from SpawnPeriod.
     */
    method Update(deltaTime: real, r: SpawnSamples, normalize: Vec3 -> Vec3)
      modifies this, particleList
      ensures Config() == old(Config())
      ensures old(actualSpawnTime) - deltaTime <= 0.0 ==>
                && actualSpawnTime == SpawnPeriod(spawnRate, srVariance, r.spawnRate)
                && Appended(old(particleList.items), particleList.items, SpawnedState(Config(), r, normalize))
      ensures old(actualSpawnTime) - deltaTime > 0.0 ==>
                && actualSpawnTime == old(actualSpawnTime) - deltaTime
                && particleList.items == old(particleList.items)
      ensures (old(actualSpawnTime) - deltaTime <= 0.0, actualSpawnTime)
              == Tick(old(actualSpawnTime), deltaTime, old(Config()), r.spawnRate)
    {
      actualSpawnTime := actualSpawnTime - deltaTime;

      if actualSpawnTime <= 0.0 {
        CreateParticle(r, normalize);
        var variance := srVariance * r.spawnRate;

        if variance <= -spawnRate {
          variance := -spawnRate + 0.01;
        }

        actualSpawnTime := 1.0 / (spawnRate + variance);
      }
    }

    /** Builds a particle from the configuration and the draws and appends it to the shared list. */
    method CreateParticle(r: SpawnSamples, normalize: Vec3 -> Vec3)
      modifies particleList
      ensures Appended(old(particleList.items), particleList.items, SpawnedState(Config(), r, normalize))
    {
      var particle := new Particle();

      // m_position and m_direction each get a scaled draw added on every axis
      var actualPosition := Jittered(position, pVariance, r.position);
      particle.SetPosition(actualPosition);

      var actualVelocity := Jittered(direction, dVariance, r.direction);
      actualVelocity := Scale(normalize(actualVelocity), velocity + vVariance * r.speed);
      particle.SetVelocity(actualVelocity);

      particle.SetTimeToLive(timeToLive + ttlVariance * r.timeToLive);

      particleList.items := particleList.items + [particle];
    }
  }

  /**
   * after is before with one new particle at the end: a fresh object with its
   * own fresh, zeroed 32-slot buffer, in the given state.
   */
  twostate predicate Appended(before: seq<Particle>, new after: seq<Particle>, s: ParticleState)
    reads set p | p in after, set p | p in after :: p.nearby
  {
    && |after| == |before| + 1
    && after[..|before|] == before
    && fresh(after[|before|])
    && fresh(after[|before|].nearby)
    && after[|before|].Valid()
    && after[|before|].State() == s
    && (forall k :: 0 <= k < MaxNearbyParticles ==> after[|before|].nearby[k] == Zero4)
  }
}
