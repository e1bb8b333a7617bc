/**
 * One particle: semi-implicit Euler integration with gravity, linear drag and
 * a lifetime countdown, and the 32-slot buffer of nearby particle positions
 * that is handed to the pixel shader.
 */
module Particles {
  import opened VectorMath

  /** MAX_NEARBY_PARTICLES: the slot count of the neighbour buffer. */
  const MaxNearbyParticles: nat := 32
  const Gravity := Vec3(0.0, -9.81, 0.0)
  const DragCoefficient: real := 0.1

  /** The integrated part of a particle. */
  datatype ParticleState = ParticleState(position: Vec3, velocity: Vec3, timeToLive: real)

  /**
   * One step of Particle::Update: drag is taken from the velocity before the
   * step, and the position moves by the velocity after it.
   */
  function Integrated(s: ParticleState, dt: real): ParticleState {
    var drag := Scale(s.velocity, DragCoefficient);
    var v := Sub(Add(s.velocity, Scale(Gravity, dt)), Scale(drag, dt));
    ParticleState(Add(s.position, Scale(v, dt)), v, s.timeToLive - dt)
  }

  /** n consecutive steps with the same time step. */
  function IntegratedTimes(s: ParticleState, dt: real, n: nat): ParticleState {
    if n == 0 then s else Integrated(IntegratedTimes(s, dt, n - 1), dt)
  }

  lemma IntegratedLifetime(s: ParticleState, dt: real)
    ensures Integrated(s, dt).timeToLive == s.timeToLive - dt
  {
  }

  /** v' = v + g*dt - 0.1*v*dt, drag from the pre-step velocity. */
  lemma IntegratedVelocity(s: ParticleState, dt: real)
    ensures Integrated(s, dt).velocity
            == Vec3(s.velocity.x + 0.0 * dt - DragCoefficient * s.velocity.x * dt,
                    s.velocity.y - 9.81 * dt - DragCoefficient * s.velocity.y * dt,
                    s.velocity.z + 0.0 * dt - DragCoefficient * s.velocity.z * dt)
  {
  }

  /** From rest the drag term vanishes and only gravity acts. */
  lemma IntegratedFromRest(s: ParticleState, dt: real)
    requires s.velocity == Zero3
    ensures Integrated(s, dt).velocity == Vec3(0.0, -9.81 * dt, 0.0)
  {
  }

  /** Semi-implicit Euler: the position advances by the NEW velocity. */
  lemma IntegratedPosition(s: ParticleState, dt: real)
    ensures Integrated(s, dt).position == Add(s.position, Scale(Integrated(s, dt).velocity, dt))
  {
  }

  /** After n steps of dt the remaining lifetime is the initial one minus n*dt. */
  lemma {:induction false} LifetimeAfterSteps(s: ParticleState, dt: real, n: nat)
    ensures IntegratedTimes(s, dt, n).timeToLive == s.timeToLive - (n as real) * dt
  {
    if n > 0 {
      LifetimeAfterSteps(s, dt, n - 1);
      IntegratedLifetime(IntegratedTimes(s, dt, n - 1), dt);
      assert (n as real) * dt == ((n - 1) as real) * dt + dt;
    }
  }

  // ---------------------------------------------------------------------
  // Neighbour search, as a specification over the world positions.

  /** Squared distance from `self` to the point held in slot k. */
  function SlotDistSq(slots: seq<Vec4>, self: Vec3, k: int): real
    requires 0 <= k < |slots|
  {
    LengthSq(Sub(XYZ(slots[k]), self))
  }

  function DistSq(p: Vec3, self: Vec3): real {
    LengthSq(Sub(p, self))
  }

  /** j is the lowest index of a slot of maximal distance among slots 0..n-1. */
  ghost predicate IsFurthest(slots: seq<Vec4>, self: Vec3, n: nat, j: int)
    requires n <= |slots|
  {
    && 0 <= j < n
    && (forall k :: 0 <= k < n ==> SlotDistSq(slots, self, k) <= SlotDistSq(slots, self, j))
    && (forall k :: 0 <= k < j ==> SlotDistSq(slots, self, k) < SlotDistSq(slots, self, j))
  }

  /** d is the maximal distance among slots 0..n-1. */
  ghost predicate IsMaxDist(slots: seq<Vec4>, self: Vec3, n: nat, d: real)
    requires n <= |slots|
  {
    && (forall k :: 0 <= k < n ==> SlotDistSq(slots, self, k) <= d)
    && (exists k :: 0 <= k < n && SlotDistSq(slots, self, k) == d)
  }

  /** The slot the furthest-slot scan settles on after looking at slots 0..n-1. */
  function FurthestAmong(slots: seq<Vec4>, self: Vec3, n: nat): (j: nat)
    requires 1 <= n <= |slots|
    ensures j < n
  {
    if n == 1 then 0
    else
      var j := FurthestAmong(slots, self, n - 1);
      if SlotDistSq(slots, self, n - 1) > SlotDistSq(slots, self, j) then n - 1 else j
  }

  /** The scan keeps the lowest index among the slots of maximal distance. */
  lemma {:induction false} FurthestAmongIsFurthest(slots: seq<Vec4>, self: Vec3, n: nat)
    requires 1 <= n <= |slots|
    ensures IsFurthest(slots, self, n, FurthestAmong(slots, self, n))
  {
    if n > 1 {
      FurthestAmongIsFurthest(slots, self, n - 1);
    }
  }

  /** There is only one lowest index of maximal distance. */
  lemma FurthestIsUnique(slots: seq<Vec4>, self: Vec3, n: nat, i: int, j: int)
    requires n <= |slots|
    requires IsFurthest(slots, self, n, i) && IsFurthest(slots, self, n, j)
    ensures i == j
  {
    assert SlotDistSq(slots, self, j) <= SlotDistSq(slots, self, i);
    assert SlotDistSq(slots, self, i) <= SlotDistSq(slots, self, j);
  }

  /** The maximal distance over a range of slots is unique. */
  lemma MaxDistIsUnique(slots: seq<Vec4>, self: Vec3, n: nat, d: real, e: real)
    requires n <= |slots|
    requires IsMaxDist(slots, self, n, d) && IsMaxDist(slots, self, n, e)
    ensures d == e
  {
    var k :| 0 <= k < n && SlotDistSq(slots, self, k) == d;
    var m :| 0 <= m < n && SlotDistSq(slots, self, m) == e;
  }

  /** The acceptance threshold of the scan: the distance of the furthest of slots 0..30. */
  function Threshold(slots: seq<Vec4>, self: Vec3): real
    requires |slots| == MaxNearbyParticles
  {
    SlotDistSq(slots, self, FurthestAmong(slots, self, MaxNearbyParticles - 1))
  }

  /** The threshold is the maximum over slots 0..30: slot 31 is not part of it. */
  lemma ThresholdIsMaxOfFirst31(slots: seq<Vec4>, self: Vec3)
    requires |slots| == MaxNearbyParticles
    ensures IsMaxDist(slots, self, MaxNearbyParticles - 1, Threshold(slots, self))
  {
    FurthestAmongIsFurthest(slots, self, MaxNearbyParticles - 1);
  }

  /**
   * Particle i of the list offered to the buffer: the first 32 fill slot i,
   * a later one overwrites the furthest slot when strictly closer than the
   * threshold.
   */
  function Considered(slots: seq<Vec4>, self: Vec3, i: nat, p: Vec3): (r: seq<Vec4>)
    requires |slots| == MaxNearbyParticles
    ensures |r| == MaxNearbyParticles
  {
    if i < MaxNearbyParticles then slots[i := Point(p)]
    else if DistSq(p, self) < Threshold(slots, self) then
      slots[FurthestAmong(slots, self, MaxNearbyParticles) := Point(p)]
    else slots
  }

  /** The buffer, before the view transform, after offering every position of pts in order. */
  function Gathered(self: Vec3, pts: seq<Vec3>): (r: seq<Vec4>)
    ensures |r| == MaxNearbyParticles
    decreases |pts|
  {
    if pts == [] then seq(MaxNearbyParticles, _ => Zero4)
    else Considered(Gathered(self, pts[..|pts| - 1]), self, |pts| - 1, pts[|pts| - 1])
  }

  /** What CalculateNearestParticles leaves in the buffer: the gathered slots in view space. */
  function NearbyInViewSpace(self: Vec3, pts: seq<Vec3>, view: Mat4): seq<Vec4> {
    TransformAll(Gathered(self, pts), view)
  }

  /**
   * A later particle overwrites at most the one slot FurthestAmong picks, only
   * when strictly closer than the threshold, and that slot's distance then
   * strictly decreases; every other slot is kept.
   */
  lemma ConsideredReplacesFurthest(slots: seq<Vec4>, self: Vec3, i: nat, p: Vec3)
    requires |slots| == MaxNearbyParticles && i >= MaxNearbyParticles
    ensures var r := Considered(slots, self, i, p);
            var j := FurthestAmong(slots, self, MaxNearbyParticles);
            && (forall k :: 0 <= k < MaxNearbyParticles && k != j ==> r[k] == slots[k])
            && (DistSq(p, self) < Threshold(slots, self) ==> r[j] == Point(p))
            && (DistSq(p, self) >= Threshold(slots, self) ==> r == slots)
            && (r != slots ==> SlotDistSq(r, self, j) < SlotDistSq(slots, self, j))
  {
    var j := FurthestAmong(slots, self, MaxNearbyParticles);
    FurthestAmongIsFurthest(slots, self, MaxNearbyParticles);
    FurthestAmongIsFurthest(slots, self, MaxNearbyParticles - 1);
    var r := Considered(slots, self, i, p);
    if r != slots {
      assert XYZ(r[j]) == p;
      assert SlotDistSq(slots, self, FurthestAmong(slots, self, MaxNearbyParticles - 1))
          <= SlotDistSq(slots, self, j);
    }
  }

  /**
   * When slot 31 is not strictly further than every earlier slot, the
   * threshold is the distance of the furthest slot overall.
   */
  lemma ThresholdWhenLastSlotNotAlone(slots: seq<Vec4>, self: Vec3)
    requires |slots| == MaxNearbyParticles
    requires exists k :: 0 <= k < MaxNearbyParticles - 1
                         && SlotDistSq(slots, self, MaxNearbyParticles - 1) <= SlotDistSq(slots, self, k)
    ensures Threshold(slots, self)
            == SlotDistSq(slots, self, FurthestAmong(slots, self, MaxNearbyParticles))
  {
    FurthestAmongIsFurthest(slots, self, MaxNearbyParticles - 1);
  }

  /**
   * The off-by-one of the scan: with slot 31 alone at distance 100 and the
   * others at 1, a candidate at distance 25 is closer than the furthest slot
   * and is still rejected.
   */
  lemma LastSlotIgnoredByThreshold()
    ensures var slots := seq(MaxNearbyParticles - 1, _ => Point(Vec3(1.0, 0.0, 0.0)))
                         + [Point(Vec3(10.0, 0.0, 0.0))];
            && DistSq(Vec3(5.0, 0.0, 0.0), Zero3) < SlotDistSq(slots, Zero3, MaxNearbyParticles - 1)
            && Considered(slots, Zero3, MaxNearbyParticles, Vec3(5.0, 0.0, 0.0)) == slots
  {
    var slots := seq(MaxNearbyParticles - 1, _ => Point(Vec3(1.0, 0.0, 0.0)))
                 + [Point(Vec3(10.0, 0.0, 0.0))];
    var j := FurthestAmong(slots, Zero3, MaxNearbyParticles - 1);
    FurthestAmongIsFurthest(slots, Zero3, MaxNearbyParticles - 1);
    assert slots[j] == Point(Vec3(1.0, 0.0, 0.0));
    assert Threshold(slots, Zero3) == 1.0;
  }

  /**
   * Slot contents before the transform: with n particles offered, slot k < n
   * holds a position from the list with w = 1 (slot k itself when n <= 32),
   * and every slot k >= n is all-zero.
   */
  lemma {:induction false} GatheredSlots(self: Vec3, pts: seq<Vec3>)
    ensures forall k :: 0 <= k < MaxNearbyParticles && k < |pts| ==>
              exists q :: q in pts && Gathered(self, pts)[k] == Point(q)
    ensures forall k :: |pts| <= k < MaxNearbyParticles ==> Gathered(self, pts)[k] == Zero4
    ensures |pts| <= MaxNearbyParticles ==>
              forall k :: 0 <= k < |pts| ==> Gathered(self, pts)[k] == Point(pts[k])
    decreases |pts|
  {
    if pts != [] {
      var init := pts[..|pts| - 1];
      GatheredSlots(self, init);
      var prev := Gathered(self, init);
      var r := Gathered(self, pts);
      var p := pts[|pts| - 1];
      forall k | 0 <= k < MaxNearbyParticles
        ensures if k < |pts| then (exists q :: q in pts && r[k] == Point(q)) else r[k] == Zero4
      {
        if |init| < MaxNearbyParticles && k == |init| {
          assert r[k] == Point(p) && p in pts;
        } else {
          if |init| >= MaxNearbyParticles {
            ConsideredReplacesFurthest(prev, self, |init|, p);
          }
          if r[k] == prev[k] {
            if k < |init| {
              var q :| q in init && prev[k] == Point(q);
              assert q in pts;
            }
          } else {
            assert r[k] == Point(p) && p in pts;
          }
        }
      }
      if |pts| <= MaxNearbyParticles {
        forall k | 0 <= k < |pts| ensures r[k] == Point(pts[k]) {
          if k < |init| {
            assert init[k] == pts[k];
          }
        }
      }
    }
  }

  /** With at most 32 particles, each zero slot is still zero in view space. */
  lemma FewParticlesInViewSpace(self: Vec3, pts: seq<Vec3>, view: Mat4)
    requires |pts| <= MaxNearbyParticles
    ensures var r := NearbyInViewSpace(self, pts, view);
            && (forall k :: 0 <= k < |pts| ==> r[k] == Transform(Point(pts[k]), view))
            && (forall k :: |pts| <= k < MaxNearbyParticles ==> r[k] == Zero4)
  {
    GatheredSlots(self, pts);
    TransformZero(view);
  }

  // ---------------------------------------------------------------------
  // The particle object.

  /** World positions of a particle list, in list order. */
  function Positions(ps: seq<Particle>): (r: seq<Vec3>)
    reads ps
    ensures |r| == |ps| && forall i :: 0 <= i < |ps| ==> r[i] == ps[i].position
  {
    seq(|ps|, i requires 0 <= i < |ps| reads ps => ps[i].position)
  }

  class Particle {
    var position: Vec3
    var velocity: Vec3
    var timeToLive: real
    /** m_nearbyParticles.particlePos: always the same 32-slot buffer. */
    const nearby: array<Vec4>

    predicate Valid() {
      nearby.Length == MaxNearbyParticles
    }

    function State(): ParticleState
      reads this
    {
      ParticleState(position, velocity, timeToLive)
    }

    /** Particle(): at the origin, at rest, one second to live, zeroed buffer. */
    constructor ()
      ensures Valid() && fresh(nearby)
      ensures State() == ParticleState(Zero3, Zero3, 1.0)
      ensures forall k :: 0 <= k < nearby.Length ==> nearby[k] == Zero4
    {
      position := Zero3;
      velocity := Zero3;
      timeToLive := 1.0;
      nearby := new Vec4[MaxNearbyParticles](_ => Zero4);
    }

    method Update(deltaTime: real)
      modifies this
      ensures State() == Integrated(old(State()), deltaTime)
    {
      var vVelocity := velocity;
      var vDrag := Scale(vVelocity, DragCoefficient);
      vVelocity := Add(vVelocity, Scale(Gravity, deltaTime));
      vVelocity := Sub(vVelocity, Scale(vDrag, deltaTime));
      velocity := vVelocity;

      position := Add(position, Scale(vVelocity, deltaTime));

      timeToLive := timeToLive - deltaTime;
    }

    /**
     * CalculateNearestParticles (declared as UpdateNearestParticles in the
     * header): refills the buffer from the whole list, this particle
     * included, then moves every slot to view space.
     */
    method CalculateNearestParticles(particles: seq<Particle>, view: Mat4)
      requires Valid()
      modifies nearby
      ensures nearby[..] == NearbyInViewSpace(position, Positions(particles), view)
    {
      forall k | 0 <= k < nearby.Length {
        nearby[k] := Zero4;
      }
      ghost var pts := Positions(particles);
      var thisPos := position;

      var i := 0;
      while i < |particles|
        invariant 0 <= i <= |particles|
        invariant nearby[..] == Gathered(thisPos, pts[..i])
      {
        assert pts[..i + 1][..i] == pts[..i];
        var otherPos := particles[i].position;
        if i < MaxNearbyParticles {
          nearby[i] := Point(otherPos);
        } else {
          ReplaceFurthestIfCloser(nearby, thisPos, otherPos, i);
        }
        i := i + 1;
      }
      assert pts[..|particles|] == pts;
      ToViewSpace(nearby, view);
    }

    method SetPosition(p: Vec3)
      modifies this
      ensures State() == old(State()).(position := p)
    {
      position := p;
    }

    method SetVelocity(v: Vec3)
      modifies this
      ensures State() == old(State()).(velocity := v)
    {
      velocity := v;
    }

    method SetTimeToLive(ttl: real)
      modifies this
      ensures State() == old(State()).(timeToLive := ttl)
    {
      timeToLive := ttl;
    }
  }

  /** Moves every slot of the buffer through the view matrix, in place. */
  method ToViewSpace(nearby: array<Vec4>, view: Mat4)
    modifies nearby
    ensures nearby[..] == TransformAll(old(nearby[..]), view)
  {
    var k := 0;
    while k < nearby.Length
      invariant 0 <= k <= nearby.Length
      invariant forall m :: 0 <= m < k ==> nearby[m] == Transform(old(nearby[m]), view)
      invariant forall m :: k <= m < nearby.Length ==> nearby[m] == old(nearby[m])
    {
      nearby[k] := Transform(nearby[k], view);
      k := k + 1;
    }
  }

  /**
   * A later particle once the buffer is full: it replaces the slot the scan
   * picks when it is closer than the scan's distance.
   */
  method ReplaceFurthestIfCloser(nearby: array<Vec4>, thisPos: Vec3, otherPos: Vec3, ghost i: nat)
    requires nearby.Length == MaxNearbyParticles && i >= MaxNearbyParticles
    modifies nearby
    ensures nearby[..] == Considered(old(nearby[..]), thisPos, i, otherPos)
  {
    ghost var slots := nearby[..];
    var indexFurthest, distToFurthestSq := FurthestSlot(nearby, thisPos);
    FurthestAmongIsFurthest(slots, thisPos, MaxNearbyParticles);
    FurthestIsUnique(slots, thisPos, MaxNearbyParticles, indexFurthest,
                     FurthestAmong(slots, thisPos, MaxNearbyParticles));
    ThresholdIsMaxOfFirst31(slots, thisPos);
    MaxDistIsUnique(slots, thisPos, MaxNearbyParticles - 1, distToFurthestSq, Threshold(slots, thisPos));
    var distToOtherSq := LengthSq(Sub(otherPos, thisPos));
    if distToOtherSq < distToFurthestSq {
      nearby[indexFurthest] := Point(otherPos);
    }
  }

  /**
   * The furthest-slot scan. The distance of the current furthest slot is
   * taken at the top of each round, before slot k is compared, so the
   * returned distance is the maximum over slots 0..30 while the returned
   * index ranges over all 32 slots.
   */
  method FurthestSlot(slots: array<Vec4>, thisPos: Vec3) returns (indexFurthest: nat, distToFurthestSq: real)
    requires slots.Length == MaxNearbyParticles
    ensures IsFurthest(slots[..], thisPos, MaxNearbyParticles, indexFurthest)
    ensures IsMaxDist(slots[..], thisPos, MaxNearbyParticles - 1, distToFurthestSq)
  {
    indexFurthest := 0;
    distToFurthestSq := 0.0;
    var k := 0;
    while k < MaxNearbyParticles
      invariant 0 <= k <= MaxNearbyParticles
      invariant k == 0 ==> indexFurthest == 0
      invariant k > 0 ==> IsFurthest(slots[..], thisPos, k, indexFurthest)
      invariant k > 0 ==> IsMaxDist(slots[..], thisPos, if k == 1 then 1 else k - 1, distToFurthestSq)
    {
      distToFurthestSq := SlotDistSq(slots[..], thisPos, indexFurthest);
      var distToCurrentSq := SlotDistSq(slots[..], thisPos, k);
      if distToCurrentSq > distToFurthestSq {
        indexFurthest := k;
      }
      k := k + 1;
    }
  }
}
