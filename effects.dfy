/** The crash effects: a burst of particles that drift under gravity and fade,
    and the screen-shake frame counter. */
module Effects {

  /** Vertical acceleration and life lost per tick. */
  const ParticleGravity: real := 0.3
  const LifeStep: real := 0.03
  /** Particles per crash. */
  const BurstSize: nat := 20
  /** Ticks of screen shake after a crash. */
  const ShakeFrames: int := 20

  datatype Particle = Particle(x: real, y: real, vx: real, vy: real, life: real)

  /** One step of a particle: it moves by its velocity, then gravity pulls its
      vertical velocity down and it loses some life. */
  function Drift(p: Particle): (q: Particle)
    ensures q.vx == p.vx && q.life < p.life
  {
    Particle(p.x + p.vx, p.y + p.vy, p.vx, p.vy + ParticleGravity, p.life - LifeStep)
  }

  /** `UpdateParticles`: every particle drifts once; those whose life has run
      out (at most 0) are removed, the others keep their order. */
  function Decay(ps: seq<Particle>): seq<Particle>
  {
    if ps == [] then []
    else (if Drift(ps[0]).life <= 0.0 then [] else [Drift(ps[0])]) + Decay(ps[1..])
  }

  /** Pairs of `NextDouble` draws in [0, 1), one pair per particle. */
  predicate ValidDraws(draws: seq<(real, real)>)
  {
    forall i :: 0 <= i < |draws| ==> 0.0 <= draws[i].0 < 1.0 && 0.0 <= draws[i].1 < 1.0
  }

  /** `SpawnParticles`: one particle per draw pair, all at the given centre,
      with velocities `d.0 * 6 - 3` and `d.1 * -6` and full life. */
  function Burst(cx: real, cy: real, draws: seq<(real, real)>): (r: seq<Particle>)
    ensures |r| == |draws|
  {
    seq(|draws|, i requires 0 <= i < |draws| => Particle(cx, cy, draws[i].0 * 6.0 - 3.0, draws[i].1 * -6.0, 1.0))
  }

  /** The shake counter after one tick: decremented, never below 0. */
  function Countdown(frames: int): (r: int)
    ensures frames > 0 ==> r == frames - 1
    ensures frames <= 0 ==> r == frames
  {
    if frames > 0 then frames - 1 else frames
  }

  /** `n` consecutive drifts of one particle. */
  function Aged(p: Particle, n: nat): Particle
    decreases n
  {
    if n == 0 then p else Aged(Drift(p), n - 1)
  }

  /** `n` consecutive `UpdateParticles` calls. */
  function DecayTimes(ps: seq<Particle>, n: nat): seq<Particle>
    decreases n
  {
    if n == 0 then ps else DecayTimes(Decay(ps), n - 1)
  }

  /** The shake counter after `n` ticks. */
  function CountdownTimes(frames: int, n: nat): int
    decreases n
  {
    if n == 0 then frames else CountdownTimes(Countdown(frames), n - 1)
  }

  // ---------------------------------------------------------------------

  /** A particle survives an update iff its drifted life is positive; the list
      never grows and every survivor is still alive. */
  lemma {:induction false} DecayMembership(ps: seq<Particle>)
    ensures |Decay(ps)| <= |ps|
    ensures forall q :: q in Decay(ps) <==> q.life > 0.0 && exists i :: 0 <= i < |ps| && q == Drift(ps[i])
  {
    if ps != [] {
      DecayMembership(ps[1..]);
      forall q: Particle | q.life > 0.0 && (exists i :: 0 <= i < |ps| && q == Drift(ps[i]))
        ensures q in Decay(ps)
      {
        var i :| 0 <= i < |ps| && q == Drift(ps[i]);
        if i > 0 {
          assert q == Drift(ps[1..][i - 1]);
        }
      }
      forall q | q in Decay(ps[1..])
        ensures exists i :: 0 <= i < |ps| && q == Drift(ps[i])
      {
        var k :| 0 <= k < |ps[1..]| && q == Drift(ps[1..][k]);
        assert q == Drift(ps[k + 1]);
      }
    }
  }

  /** Updating a list is updating its two halves separately: removal keeps the
      survivors' order, so walking the list backwards changes nothing. */
  lemma {:induction false} DecayAppend(a: seq<Particle>, b: seq<Particle>)
    ensures Decay(a + b) == Decay(a) + Decay(b)
  {
    if a == [] {
      assert a + b == b;
    } else {
      assert (a + b)[1..] == a[1..] + b;
      DecayAppend(a[1..], b);
    }
  }

  /** One step of the backward walk: the update of the suffix from `i` is the
      update of element `i` followed by the update of the suffix after it. */
  lemma DecayFromBack(ps: seq<Particle>, i: int)
    requires 0 <= i < |ps|
    ensures Decay(ps[i..]) == (if Drift(ps[i]).life <= 0.0 then [] else [Drift(ps[i])]) + Decay(ps[i + 1..])
    ensures ps[..i + 1] == ps[..i] + [ps[i]]
  {
    assert ps[i..][1..] == ps[i + 1..];
  }

  /** A burst: every particle at the centre with full life, horizontal
      velocity in [-3, 3) and vertical velocity in (-6, 0], i.e. never downwards. */
  lemma BurstShape(cx: real, cy: real, draws: seq<(real, real)>)
    requires ValidDraws(draws)
    ensures forall p :: p in Burst(cx, cy, draws) ==>
      p.x == cx && p.y == cy && p.life == 1.0 && -3.0 <= p.vx < 3.0 && -6.0 < p.vy <= 0.0
  {
    forall p | p in Burst(cx, cy, draws)
      ensures p.x == cx && p.y == cy && p.life == 1.0 && -3.0 <= p.vx < 3.0 && -6.0 < p.vy <= 0.0
    {
      var i :| 0 <= i < |draws| && Burst(cx, cy, draws)[i] == p;
    }
  }

  /** After `n` drifts a particle has moved along a parabola: uniform motion
      horizontally, constant acceleration vertically, and linear loss of life. */
  lemma {:induction false} AgedClosedForm(p: Particle, n: nat)
    ensures Aged(p, n) == Particle(
      p.x + n as real * p.vx,
      p.y + n as real * p.vy + ParticleGravity * (n * (n - 1) / 2) as real,
      p.vx,
      p.vy + n as real * ParticleGravity,
      p.life - n as real * LifeStep)
    decreases n
  {
    if n > 0 {
      AgedClosedForm(Drift(p), n - 1);
      assert (n - 1) * (n - 2) / 2 + (n - 1) == n * (n - 1) / 2 by {
        assert (n - 1) * (n - 2) + 2 * (n - 1) == n * (n - 1);
      }
    }
  }

  /** While a lone particle's drifted life stays positive it is kept and aged. */
  lemma {:induction false} LoneParticleAges(p: Particle, n: nat)
    requires p.life > n as real * LifeStep
    ensures DecayTimes([p], n) == [Aged(p, n)]
    decreases n
  {
    if n > 0 {
      AgedClosedForm(Drift(p), n - 1);
      assert Decay([p]) == [Drift(p)];
      LoneParticleAges(Drift(p), n - 1);
    }
  }

  /** A crash particle (life 1.0) is drawn for 33 updates and removed by the
      34th, since 1 - 34 * 0.03 <= 0 < 1 - 33 * 0.03. */
  lemma BurstParticleLifetime(p: Particle)
    requires p.life == 1.0
    ensures DecayTimes([p], 33) == [Aged(p, 33)] && Aged(p, 33).life > 0.0
    ensures DecayTimes([p], 34) == []
  {
    LoneParticleAges(p, 33);
    AgedClosedForm(p, 33);
    AgedClosedForm(p, 34);
    var q := Aged(p, 33);
    assert DecayTimes([p], 34) == DecayTimes(Decay([p]), 33);
    DecayTimesShift([p], 33);
    assert Aged(p, 34) == Drift(q) by { AgedStep(p, 33); }
    assert Decay([q]) == [];
  }

  lemma {:induction false} DecayTimesShift(ps: seq<Particle>, n: nat)
    ensures DecayTimes(ps, n + 1) == Decay(DecayTimes(ps, n))
    decreases n
  {
    if n > 0 {
      DecayTimesShift(Decay(ps), n - 1);
    }
  }

  lemma {:induction false} AgedStep(p: Particle, n: nat)
    ensures Aged(p, n + 1) == Drift(Aged(p, n))
    decreases n
  {
    if n > 0 {
      AgedStep(Drift(p), n - 1);
    }
  }

  /** The shake lasts `ShakeFrames` ticks: the counter goes down by one per tick
      from 20 and then stays at 0. */
  lemma {:induction false} ShakeWindsDown(frames: int, n: nat)
    requires 0 <= frames
    ensures CountdownTimes(frames, n) == if n <= frames then frames - n else 0
    decreases n
  {
    if n > 0 {
      ShakeWindsDown(Countdown(frames), n - 1);
    }
  }
}
