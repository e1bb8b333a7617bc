/**
 * The particle system: keyboard tuning of its spawner, one spawner step,
 * then one integration step for every particle with dead particles erased
 * in place, and a render pass that recomputes each particle's neighbour
 * buffer before drawing it and stops at the first failed draw.
 */
module ParticleSystems {
  import opened VectorMath
  import opened Particles
  import opened Spawning
  import opened KeyObservers
  import opened Input

  /** Virtual-key codes read by the tuning: VK_SHIFT and the letters E, Q, X, Y. */
  const VkShift: int := 0x10
  const KeyE: int := 'E' as int
  const KeyQ: int := 'Q' as int
  const KeyX: int := 'X' as int
  const KeyY: int := 'Y' as int

  /** The key flags the tuning reads. */
  datatype TuningKeys = TuningKeys(shiftHeld: bool, ePressed: bool, qPressed: bool,
                                   xPressed: bool, yPressed: bool)

  /**
   * The flags as read from a copy of the input singleton: a key nobody
   * observes reads as all-false, and the default entries the lookups insert
   * land in the copy, not in the singleton.
   */
  function KeysOf(input: InputSystem): TuningKeys
    reads input, input.keyMapper.Values
  {
    TuningKeys(input.Peek(VkShift).held, input.Peek(KeyE).pressed, input.Peek(KeyQ).pressed,
               input.Peek(KeyX).pressed, input.Peek(KeyY).pressed)
  }

  /**
   * The four tuning rules applied in order: Shift+E raises the velocity below
   * 20, otherwise E raises the spawn rate below 40; Shift+Q lowers the
   * velocity above 2, otherwise Q lowers the spawn rate above 2; X raises the
   * direction variance by 0.1 below 2; Y lowers it by 0.1 above 0.
   */
  function TunedConfig(c: SpawnerConfig, k: TuningKeys): SpawnerConfig {
    NarrowRule(WidenRule(SlowRule(SpeedRule(c, k), k), k), k)
  }

  /** The E rule: Shift+E raises the velocity below 20, otherwise E raises the spawn rate below 40. */
  function SpeedRule(c: SpawnerConfig, k: TuningKeys): SpawnerConfig {
    if k.shiftHeld && k.ePressed && c.velocity < 20.0 then c.(velocity := c.velocity + 1.0)
    else if k.ePressed && c.spawnRate < 40.0 then c.(spawnRate := c.spawnRate + 1.0)
    else c
  }

  /** The Q rule: Shift+Q lowers the velocity above 2, otherwise Q lowers the spawn rate above 2. */
  function SlowRule(c: SpawnerConfig, k: TuningKeys): SpawnerConfig {
    if k.shiftHeld && k.qPressed && c.velocity > 2.0 then c.(velocity := c.velocity - 1.0)
    else if k.qPressed && c.spawnRate > 2.0 then c.(spawnRate := c.spawnRate - 1.0)
    else c
  }

  /** The X rule: the direction variance grows by 0.1 below 2. */
  function WidenRule(c: SpawnerConfig, k: TuningKeys): SpawnerConfig {
    if k.xPressed && c.dVariance < 2.0 then c.(dVariance := c.dVariance + 0.1) else c
  }

  /** The Y rule: the direction variance shrinks by 0.1 above 0. */
  function NarrowRule(c: SpawnerConfig, k: TuningKeys): SpawnerConfig {
    if k.yPressed && c.dVariance > 0.0 then c.(dVariance := c.dVariance - 0.1) else c
  }

  /** Tuning touches the velocity, the spawn rate and the direction variance only. */
  lemma TuningLeavesOtherFields(c: SpawnerConfig, k: TuningKeys)
    ensures TunedConfig(c, k) == c.(velocity := TunedConfig(c, k).velocity,
                                    spawnRate := TunedConfig(c, k).spawnRate,
                                    dVariance := TunedConfig(c, k).dVariance)
  {
  }

  /**
   * The spawn rate only goes up from below 40 and only goes down from above
   * 2, by one at a time; the same bounds hold for the velocity at 20 and 2,
   * and for the direction variance at 2 and 0.
   */
  lemma TuningGuards(c: SpawnerConfig, k: TuningKeys)
    ensures var t := TunedConfig(c, k);
            && (t.spawnRate > c.spawnRate ==> c.spawnRate < 40.0 && t.spawnRate == c.spawnRate + 1.0)
            && (t.spawnRate < c.spawnRate ==> c.spawnRate > 2.0 && t.spawnRate == c.spawnRate - 1.0)
            && (t.velocity > c.velocity ==> c.velocity < 20.0 && t.velocity == c.velocity + 1.0)
            && (t.velocity < c.velocity ==> c.velocity > 2.0 && t.velocity == c.velocity - 1.0)
            && (t.dVariance > c.dVariance ==> c.dVariance < 2.0)
            && (t.dVariance < c.dVariance ==> c.dVariance > 0.0)
  {
  }

  /** Tuning keeps the three tuned fields inside the ranges their guards allow. */
  lemma TuningKeepsRanges(c: SpawnerConfig, k: TuningKeys)
    requires 1.0 <= c.spawnRate <= 41.0 && 1.0 <= c.velocity <= 21.0
    requires -0.1 <= c.dVariance <= 2.1
    ensures var t := TunedConfig(c, k);
            && 1.0 <= t.spawnRate <= 41.0 && 1.0 <= t.velocity <= 21.0
            && -0.1 <= t.dVariance <= 2.1
  {
  }

  /**
   * With Shift held and E pressed at velocity 20 or more the first rule falls
   * through to its else branch, and the spawn rate goes up instead.
   */
  lemma ShiftEAtTopVelocityRaisesRate(c: SpawnerConfig, k: TuningKeys)
    requires k.shiftHeld && k.ePressed && !k.qPressed
    requires c.velocity >= 20.0 && c.spawnRate < 40.0
    ensures TunedConfig(c, k).spawnRate == c.spawnRate + 1.0
    ensures TunedConfig(c, k).velocity == c.velocity
  {
  }

  /**
   * The entries of xs whose state has a positive lifetime, in list order:
   * what the erase loop leaves of a list whose particles have the given
   * states after their update.
   */
  function Survivors<T>(xs: seq<T>, states: seq<ParticleState>): seq<T>
    requires |states| == |xs|
    decreases |xs|
  {
    if xs == [] then []
    else
      var n := |xs| - 1;
      Survivors(xs[..n], states[..n]) + (if states[n].timeToLive > 0.0 then [xs[n]] else [])
  }

  /** The entries of xs the erase loop removes: those whose lifetime has run out. */
  function Expired<T>(xs: seq<T>, states: seq<ParticleState>): seq<T>
    requires |states| == |xs|
    decreases |xs|
  {
    if xs == [] then []
    else
      var n := |xs| - 1;
      Expired(xs[..n], states[..n]) + (if states[n].timeToLive > 0.0 then [] else [xs[n]])
  }

  /**
   * Survivors are exactly the live entries, kept in order: they sit at
   * strictly increasing positions of xs whose lifetime is positive, and every
   * position with a positive lifetime is one of them.
   */
  lemma {:induction false} SurvivorsAreTheLiveInOrder<T>(xs: seq<T>, states: seq<ParticleState>)
    returns (at: seq<nat>)
    requires |states| == |xs|
    ensures LiveAt(xs, states, at)
    decreases |xs|
  {
    if xs == [] {
      at := [];
    } else {
      var n := |xs| - 1;
      var init, st := xs[..n], states[..n];
      var prev := SurvivorsAreTheLiveInOrder(init, st);
      at := LiveInOrderStep(xs, states, prev);
    }
  }

  /** LiveAt: at lists, in increasing order, exactly the live positions of xs, and the survivors sit there. */
  ghost predicate LiveAt<T>(xs: seq<T>, states: seq<ParticleState>, at: seq<nat>)
    requires |states| == |xs|
  {
    Places(xs, states, at) && Increasing(at) && Complete(xs, states, at)
  }

  /** The k-th survivor is entry at[k] of xs, which is live. */
  ghost predicate Places<T>(xs: seq<T>, states: seq<ParticleState>, at: seq<nat>)
    requires |states| == |xs|
  {
    && |at| == |Survivors(xs, states)|
    && forall k :: 0 <= k < |at| ==>
         at[k] < |xs| && Survivors(xs, states)[k] == xs[at[k]] && states[at[k]].timeToLive > 0.0
  }

  predicate Increasing(at: seq<nat>) {
    forall k, m :: 0 <= k < m < |at| ==> at[k] < at[m]
  }

  /** Every live position of xs is listed. */
  predicate Complete<T>(xs: seq<T>, states: seq<ParticleState>, at: seq<nat>)
    requires |states| == |xs|
  {
    forall i :: 0 <= i < |xs| && states[i].timeToLive > 0.0 ==> i in at
  }

  /** The positions for all of xs from those for all but its last entry. */
  lemma LiveInOrderStep<T>(xs: seq<T>, states: seq<ParticleState>, prev: seq<nat>) returns (at: seq<nat>)
    requires |states| == |xs| && xs != []
    requires LiveAt(xs[..|xs| - 1], states[..|xs| - 1], prev)
    ensures LiveAt(xs, states, at)
  {
    var n := |xs| - 1;
    at := if states[n].timeToLive > 0.0 then prev + [n] else prev;
    PlacesStep(xs, states, prev, at);
    IncreasingStep(prev, n, at);
    CompleteStep(xs, states, prev, at);
  }

  lemma PlacesStep<T>(xs: seq<T>, states: seq<ParticleState>, prev: seq<nat>, at: seq<nat>)
    requires |states| == |xs| && xs != []
    requires Places(xs[..|xs| - 1], states[..|xs| - 1], prev)
    requires at == if states[|xs| - 1].timeToLive > 0.0 then prev + [|xs| - 1] else prev
    ensures Places(xs, states, at)
  {
    var n := |xs| - 1;
    var init, st := xs[..n], states[..n];
    var kept := Survivors(init, st);
    var live := states[n].timeToLive > 0.0;
    assert Survivors(xs, states) == kept + (if live then [xs[n]] else []);
    forall k | 0 <= k < |at|
      ensures at[k] < |xs| && Survivors(xs, states)[k] == xs[at[k]] && states[at[k]].timeToLive > 0.0
    {
      if k < |prev| {
        assert at[k] == prev[k] && Survivors(xs, states)[k] == kept[k];
        assert xs[prev[k]] == init[prev[k]] && states[prev[k]] == st[prev[k]];
      }
    }
  }

  lemma IncreasingStep(prev: seq<nat>, n: nat, at: seq<nat>)
    requires Increasing(prev) && forall k :: 0 <= k < |prev| ==> prev[k] < n
    requires at == prev || at == prev + [n]
    ensures Increasing(at)
  {
  }

  lemma CompleteStep<T>(xs: seq<T>, states: seq<ParticleState>, prev: seq<nat>, at: seq<nat>)
    requires |states| == |xs| && xs != []
    requires Complete(xs[..|xs| - 1], states[..|xs| - 1], prev)
    requires at == if states[|xs| - 1].timeToLive > 0.0 then prev + [|xs| - 1] else prev
    ensures Complete(xs, states, at)
  {
    var n := |xs| - 1;
    forall i | 0 <= i < |xs| && states[i].timeToLive > 0.0
      ensures i in at
    {
      if i < n {
        assert states[i] == states[..n][i];
        assert i in prev;
      }
    }
  }

  /** Survivors and removed entries together are the whole list, as a multiset. */
  lemma {:induction false} SurvivorsAndExpiredPartition<T>(xs: seq<T>, states: seq<ParticleState>)
    requires |states| == |xs|
    ensures multiset(Survivors(xs, states)) + multiset(Expired(xs, states)) == multiset(xs)
    decreases |xs|
  {
    if xs != [] {
      var n := |xs| - 1;
      var init, st := xs[..n], states[..n];
      SurvivorsAndExpiredPartition(init, st);
      assert xs == init + [xs[n]];
      var last := if states[n].timeToLive > 0.0 then [xs[n]] else [];
      var gone := if states[n].timeToLive > 0.0 then [] else [xs[n]];
      assert Survivors(xs, states) == Survivors(init, st) + last;
      assert Expired(xs, states) == Expired(init, st) + gone;
      assert multiset(last) + multiset(gone) == multiset{xs[n]};
    }
  }

  /** The count after the erase loop is the count before less the number removed. */
  lemma SurvivorsAndExpiredCount<T>(xs: seq<T>, states: seq<ParticleState>)
    requires |states| == |xs|
    ensures |Survivors(xs, states)| + |Expired(xs, states)| == |xs|
  {
    SurvivorsAndExpiredPartition(xs, states);
    assert |multiset(Survivors(xs, states)) + multiset(Expired(xs, states))| == |multiset(xs)|;
  }

  /** One more entry offered to the filter. */
  lemma SurvivorsStep<T>(xs: seq<T>, states: seq<ParticleState>, j: nat)
    requires |states| == |xs| && j < |xs|
    ensures Survivors(xs[..j + 1], states[..j + 1])
            == Survivors(xs[..j], states[..j]) + (if states[j].timeToLive > 0.0 then [xs[j]] else [])
  {
    assert xs[..j + 1][..j] == xs[..j] && states[..j + 1][..j] == states[..j];
  }

  /** When the states are the particles' own, no survivor has a lifetime of 0 or less. */
  lemma SurvivorsLive(ps: seq<Particle>, states: seq<ParticleState>)
    requires |states| == |ps| && forall i :: 0 <= i < |ps| ==> ps[i].State() == states[i]
    ensures forall p :: p in Survivors(ps, states) ==> p.timeToLive > 0.0
  {
    var at := SurvivorsAreTheLiveInOrder(ps, states);
    forall p | p in Survivors(ps, states) ensures p.timeToLive > 0.0 {
      var k :| 0 <= k < |at| && Survivors(ps, states)[k] == p;
      assert ps[at[k]].State() == states[at[k]];
    }
  }

  /** Distinct particles with distinct 32-slot buffers. */
  predicate WellFormed(ps: seq<Particle>) {
    && (forall i :: 0 <= i < |ps| ==> ps[i].Valid())
    && (forall i, j :: 0 <= i < j < |ps| ==> ps[i] != ps[j] && ps[i].nearby != ps[j].nearby)
  }

  /** No particle occurs twice. */
  predicate Distinct(ps: seq<Particle>) {
    forall i, j :: 0 <= i < j < |ps| ==> ps[i] != ps[j]
  }

  /** The first j particles are integrated once from their states in before, the rest not yet. */
  predicate IntegratedUpTo(ps: seq<Particle>, before: seq<ParticleState>, dt: real, j: int)
    requires |before| == |ps|
    reads set p | p in ps
  {
    forall k :: 0 <= k < |ps| ==> ps[k].State() == if k < j then Integrated(before[k], dt) else before[k]
  }

  /**
   * One step of the erase loop on a list that holds the survivors of the
   * first j entries followed by the unvisited ones: the cursor is on entry j,
   * and keeping it or erasing it leaves the survivors of the first j + 1.
   */
  lemma SurvivorsAdvance<T>(items: seq<T>, xs: seq<T>, states: seq<ParticleState>, j: nat)
    requires |states| == |xs| && j < |xs|
    requires items == Survivors(xs[..j], states[..j]) + xs[j..]
    ensures var i := |Survivors(xs[..j], states[..j])|;
            && i < |items| && items[i] == xs[j]
            && (states[j].timeToLive > 0.0 ==>
                  && items == Survivors(xs[..j + 1], states[..j + 1]) + xs[j + 1..]
                  && i + 1 == |Survivors(xs[..j + 1], states[..j + 1])|)
            && (states[j].timeToLive <= 0.0 ==>
                  && items[..i] + items[i + 1..] == Survivors(xs[..j + 1], states[..j + 1]) + xs[j + 1..]
                  && i == |Survivors(xs[..j + 1], states[..j + 1])|)
  {
    SurvivorsStep(xs, states, j);
    var kept := Survivors(xs[..j], states[..j]);
    assert xs[j..] == [xs[j]] + xs[j + 1..];
    if states[j].timeToLive <= 0.0 {
      assert items[..|kept|] == kept;
      assert items[|kept| + 1..] == xs[j + 1..];
    }
  }

  /** Erasing particles keeps the list well formed. */
  lemma SurvivorsWellFormed(ps: seq<Particle>, states: seq<ParticleState>)
    requires |states| == |ps| && WellFormed(ps)
    ensures WellFormed(Survivors(ps, states))
  {
    var at := SurvivorsAreTheLiveInOrder(ps, states);
  }

  /** The states of a particle list, in list order. */
  function States(ps: seq<Particle>): (r: seq<ParticleState>)
    reads ps
    ensures |r| == |ps| && forall i :: 0 <= i < |ps| ==> r[i] == ps[i].State()
  {
    seq(|ps|, i requires 0 <= i < |ps| reads ps => ps[i].State())
  }

  /** Every state stepped once by dt. */
  function IntegratedAll(states: seq<ParticleState>, dt: real): (r: seq<ParticleState>)
    ensures |r| == |states| && forall i :: 0 <= i < |states| ==> r[i] == Integrated(states[i], dt)
  {
    seq(|states|, i requires 0 <= i < |states| => Integrated(states[i], dt))
  }

  /** The index of the first failed draw, or the list length when every draw succeeds. */
  function FirstFailure(drawOk: seq<bool>): (r: nat)
    ensures r <= |drawOk|
    ensures forall k :: 0 <= k < r ==> drawOk[k]
    ensures r < |drawOk| ==> !drawOk[r]
    decreases |drawOk|
  {
    if drawOk == [] then 0
    else if !drawOk[0] then 0
    else 1 + FirstFailure(drawOk[1..])
  }

  class ParticleSystem {
    /** m_particles: the vector the spawner appends to. */
    const particles: ParticleList
    /** m_particleSpawner; GetParticleSpawner returns it. */
    const spawner: ParticleSpawner

    predicate Valid()
      reads particles
    {
      spawner.particleList == particles && WellFormed(particles.items)
    }

    /** A system with no particles and a default spawner at position. */
    constructor (position: Vec3)
      ensures Valid() && fresh(particles) && fresh(spawner)
      ensures particles.items == []
      ensures spawner.Config() == DefaultConfig(position) && spawner.actualSpawnTime == 0.0
    {
      var list := new ParticleList();
      particles := list;
      spawner := new ParticleSpawner(position, list);
    }

    /**
     * One frame. spawned is the list after the spawner step and before[i]
     * the state of spawned[i] then; every particle of spawned is integrated
     * once, the freshly spawned one included, and the list keeps exactly
     * those still alive, in order. input is the singleton the system copies.
     */
    method Update(deltaTime: real, input: InputSystem, r: SpawnSamples, normalize: Vec3 -> Vec3)
      returns (ghost spawned: seq<Particle>, ghost before: seq<ParticleState>)
      requires Valid()
      modifies spawner, particles, set p | p in particles.items
      ensures Valid()
      ensures spawner.Config() == TunedConfig(old(spawner.Config()), old(KeysOf(input)))
      ensures |before| == |spawned| && |old(particles.items)| <= |spawned|
      ensures spawned[..|old(particles.items)|] == old(particles.items)
      ensures old(spawner.actualSpawnTime) - deltaTime <= 0.0 ==>
                && |spawned| == |old(particles.items)| + 1
                && before[|spawned| - 1] == SpawnedState(spawner.Config(), r, normalize)
                && spawner.actualSpawnTime == SpawnPeriod(spawner.spawnRate, spawner.srVariance, r.spawnRate)
      ensures old(spawner.actualSpawnTime) - deltaTime > 0.0 ==>
                && |spawned| == |old(particles.items)|
                && spawner.actualSpawnTime == old(spawner.actualSpawnTime) - deltaTime
      ensures forall i :: 0 <= i < |old(particles.items)| ==> before[i] == old(particles.items[i].State())
      ensures forall i :: 0 <= i < |spawned| ==> spawned[i].State() == Integrated(before[i], deltaTime)
      ensures particles.items == Survivors(spawned, IntegratedAll(before, deltaTime))
      ensures forall p :: p in particles.items ==> p.timeToLive > 0.0
    {
      var keys := KeysOf(input);
      ApplyTuning(keys);
      spawned, before := Advance(deltaTime, r, normalize);
    }

    /** Update after the tuning keys: the spawner step, then the integrate-and-erase loop. */
    method Advance(deltaTime: real, r: SpawnSamples, normalize: Vec3 -> Vec3)
      returns (ghost spawned: seq<Particle>, ghost before: seq<ParticleState>)
      requires Valid()
      modifies spawner, particles, set p | p in particles.items
      ensures Valid()
      ensures spawner.Config() == old(spawner.Config())
      ensures |before| == |spawned| && |old(particles.items)| <= |spawned|
      ensures spawned[..|old(particles.items)|] == old(particles.items)
      ensures old(spawner.actualSpawnTime) - deltaTime <= 0.0 ==>
                && |spawned| == |old(particles.items)| + 1
                && before[|spawned| - 1] == SpawnedState(spawner.Config(), r, normalize)
                && spawner.actualSpawnTime == SpawnPeriod(spawner.spawnRate, spawner.srVariance, r.spawnRate)
      ensures old(spawner.actualSpawnTime) - deltaTime > 0.0 ==>
                && |spawned| == |old(particles.items)|
                && spawner.actualSpawnTime == old(spawner.actualSpawnTime) - deltaTime
      ensures forall i :: 0 <= i < |old(particles.items)| ==> before[i] == old(particles.items[i].State())
      ensures forall i :: 0 <= i < |spawned| ==> spawned[i].State() == Integrated(before[i], deltaTime)
      ensures particles.items == Survivors(spawned, IntegratedAll(before, deltaTime))
      ensures forall p :: p in particles.items ==> p.timeToLive > 0.0
    {
      spawned, before := Spawn(deltaTime, r, normalize);
      ProcessParticles(deltaTime, spawned, before);
      SurvivorsWellFormed(spawned, IntegratedAll(before, deltaTime));
    }

    /** The spawner step, which keeps the shared list well formed. */
    method Spawn(deltaTime: real, r: SpawnSamples, normalize: Vec3 -> Vec3)
      returns (ghost spawned: seq<Particle>, ghost states: seq<ParticleState>)
      requires Valid()
      modifies spawner, particles
      ensures Valid() && spawner.Config() == old(spawner.Config())
      ensures spawned == particles.items && states == States(spawned)
      ensures |old(particles.items)| <= |spawned| && spawned[..|old(particles.items)|] == old(particles.items)
      ensures forall i :: 0 <= i < |old(particles.items)| ==> states[i] == old(particles.items[i].State())
      ensures old(spawner.actualSpawnTime) - deltaTime <= 0.0 ==>
                && spawner.actualSpawnTime == SpawnPeriod(spawner.spawnRate, spawner.srVariance, r.spawnRate)
                && Appended(old(particles.items), particles.items, SpawnedState(spawner.Config(), r, normalize))
      ensures old(spawner.actualSpawnTime) - deltaTime > 0.0 ==>
                && spawner.actualSpawnTime == old(spawner.actualSpawnTime) - deltaTime
                && particles.items == old(particles.items)
    {
      spawner.Update(deltaTime, r, normalize);
      spawned := particles.items;
      states := States(spawned);
      ghost var before, after := old(particles.items), particles.items;
      if old(spawner.actualSpawnTime) - deltaTime <= 0.0 {
        // the new particle and its buffer are fresh, so differ from every earlier one
        forall i, j | 0 <= i < j < |after| ensures after[i] != after[j] && after[i].nearby != after[j].nearby {
          if j < |before| {
            assert after[i] == before[i] && after[j] == before[j];
          } else {
            assert after[i] == before[i];
          }
        }
      }
    }

    /** The four tuning rules, on the public fields of the spawner. */
    method ApplyTuning(keys: TuningKeys)
      modifies spawner
      ensures spawner.Config() == TunedConfig(old(spawner.Config()), keys)
      ensures spawner.actualSpawnTime == old(spawner.actualSpawnTime)
    {
      ghost var c0 := spawner.Config();
      if keys.shiftHeld && keys.ePressed && spawner.velocity < 20.0 {
        spawner.velocity := spawner.velocity + 1.0;
      } else if keys.ePressed && spawner.spawnRate < 40.0 {
        spawner.spawnRate := spawner.spawnRate + 1.0;
      }
      ghost var c1 := spawner.Config();
      assert c1 == SpeedRule(c0, keys);

      if keys.shiftHeld && keys.qPressed && spawner.velocity > 2.0 {
        spawner.velocity := spawner.velocity - 1.0;
      } else if keys.qPressed && spawner.spawnRate > 2.0 {
        spawner.spawnRate := spawner.spawnRate - 1.0;
      }
      ghost var c2 := spawner.Config();
      assert c2 == SlowRule(c1, keys);

      if keys.xPressed && spawner.dVariance < 2.0 {
        spawner.dVariance := spawner.dVariance + 0.1;
      }
      assert spawner.Config() == WidenRule(c2, keys);

      if keys.yPressed && spawner.dVariance > 0.0 {
        spawner.dVariance := spawner.dVariance - 0.1;
      }
    }

    /** The integrate-and-erase loop; `i--` after an erase revisits the slot the next particle moved into. */
    method ProcessParticles(deltaTime: real, ghost spawned: seq<Particle>, ghost before: seq<ParticleState>)
      requires particles.items == spawned && Distinct(spawned)
      requires |before| == |spawned| && forall i :: 0 <= i < |spawned| ==> spawned[i].State() == before[i]
      modifies particles, set p | p in spawned
      ensures forall i :: 0 <= i < |spawned| ==> spawned[i].State() == Integrated(before[i], deltaTime)
      ensures particles.items == Survivors(spawned, IntegratedAll(before, deltaTime))
      ensures forall p :: p in particles.items ==> p.timeToLive > 0.0
    {
      ghost var after := IntegratedAll(before, deltaTime);
      assert IntegratedUpTo(spawned, before, deltaTime, 0);
      assert spawned[..0] == [] && after[..0] == [] && spawned[0..] == spawned;
      var i: int := 0;
      ghost var j := 0;
      while i < |particles.items|
        invariant 0 <= j <= |spawned|
        invariant particles.items == Survivors(spawned[..j], after[..j]) + spawned[j..]
        invariant i == |Survivors(spawned[..j], after[..j])|
        invariant IntegratedUpTo(spawned, before, deltaTime, j)
        decreases |spawned| - j
      {
        i := Visit(deltaTime, i, spawned, before, j);
        i := i + 1;
        j := j + 1;
      }
      assert spawned[..j] == spawned && after[..j] == after;
      SurvivorsLive(spawned, after);
    }

    /**
     * One turn of the integrate-and-erase loop, at cursor i on spawned[j]:
     * the particle is integrated, and erased with the cursor stepped back
     * when its lifetime has run out.
     */
    method Visit(deltaTime: real, i: int, ghost spawned: seq<Particle>, ghost before: seq<ParticleState>, ghost j: nat)
      returns (cursor: int)
      requires |before| == |spawned| && j < |spawned| && Distinct(spawned)
      requires particles.items == Survivors(spawned[..j], IntegratedAll(before, deltaTime)[..j]) + spawned[j..]
      requires i == |Survivors(spawned[..j], IntegratedAll(before, deltaTime)[..j])|
      requires IntegratedUpTo(spawned, before, deltaTime, j)
      modifies particles, spawned[j]
      ensures particles.items == Survivors(spawned[..j + 1], IntegratedAll(before, deltaTime)[..j + 1]) + spawned[j + 1..]
      ensures cursor + 1 == |Survivors(spawned[..j + 1], IntegratedAll(before, deltaTime)[..j + 1])|
      ensures IntegratedUpTo(spawned, before, deltaTime, j + 1)
    {
      ghost var after := IntegratedAll(before, deltaTime);
      ghost var items := particles.items;
      SurvivorsAdvance(items, spawned, after, j);
      var particle := particles.items[i];
      assert forall k :: 0 <= k < |spawned| && k != j ==> spawned[k] != spawned[j];
      particle.Update(deltaTime);
      assert particles.items == items;

      cursor := i;
      if particle.timeToLive <= 0.0 {
        particles.items := particles.items[..i] + particles.items[i + 1..];
        cursor := i - 1;
      }
    }

    /**
     * The draw pass: each particle in list order recomputes its neighbour
     * buffer from the whole list and is drawn; drawOk[i] is the result of
     * drawing particle i. The pass stops at the first failed draw, after
     * that particle's buffer was recomputed and before any later one's.
     */
    method Render(view: Mat4, drawOk: seq<bool>) returns (ok: bool)
      requires Valid() && |drawOk| == |particles.items|
      modifies set p | p in particles.items :: p.nearby
      ensures ok <==> FirstFailure(drawOk) == |drawOk|
      ensures forall i :: 0 <= i < |particles.items| && i <= FirstFailure(drawOk) ==>
                particles.items[i].nearby[..]
                == NearbyInViewSpace(particles.items[i].position, Positions(particles.items), view)
      ensures forall i :: 0 <= i < |particles.items| && i > FirstFailure(drawOk) ==>
                particles.items[i].nearby[..] == old(particles.items[i].nearby[..])
    {
      ok := RenderParticles(particles.items, view, drawOk);
    }
  }

  /** Render's loop over the list. */
  method RenderParticles(items: seq<Particle>, view: Mat4, drawOk: seq<bool>) returns (ok: bool)
    requires WellFormed(items) && |drawOk| == |items|
    modifies set p | p in items :: p.nearby
    ensures ok <==> FirstFailure(drawOk) == |drawOk|
    ensures forall i :: 0 <= i < |items| && i <= FirstFailure(drawOk) ==>
              items[i].nearby[..] == NearbyInViewSpace(items[i].position, Positions(items), view)
    ensures forall i :: 0 <= i < |items| && i > FirstFailure(drawOk) ==>
              items[i].nearby[..] == old(items[i].nearby[..])
  {
    var i := 0;
    while i < |items|
      invariant 0 <= i <= |items| && i <= FirstFailure(drawOk)
      invariant forall k :: 0 <= k < i ==>
                  items[k].nearby[..] == NearbyInViewSpace(items[k].position, Positions(items), view)
      invariant forall k :: i <= k < |items| ==> items[k].nearby[..] == old(items[k].nearby[..])
    {
      RefreshNearby(items, i, view);
      if !drawOk[i] {
        return false;
      }
      i := i + 1;
    }
    return true;
  }

  /** One particle's CalculateNearestParticles inside Render: only that particle's buffer changes. */
  method RefreshNearby(items: seq<Particle>, i: nat, view: Mat4)
    requires WellFormed(items) && i < |items|
    modifies items[i].nearby
    ensures items[i].nearby[..] == NearbyInViewSpace(items[i].position, Positions(items), view)
    ensures forall k :: 0 <= k < |items| && k != i ==> items[k].nearby[..] == old(items[k].nearby[..])
  {
    forall k | 0 <= k < |items| && k != i
      ensures items[k].nearby != items[i].nearby
    {
      if k < i {
        assert items[k].nearby != items[i].nearby;
      } else {
        assert items[i].nearby != items[k].nearby;
      }
    }
    items[i].CalculateNearestParticles(items, view);
  }

}
