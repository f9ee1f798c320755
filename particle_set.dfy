/** A batch of particles sharing one configuration and one lifetime countdown (ParticleSet.js).
    The set owns its particles; each update ticks every particle, applies shrink and fade, counts
    the set's lifetime down and drops all particles when that lifetime reaches exactly 0. */
module ParticleSets {
  import opened Wrappers
  import opened Vectors
  import opened Config
  import opened Particles

  /** How much a particle's size shrinks per update: only with shrink on and the line shape. */
  function ShrinkStep(o: Options): real
  {
    if o.shrink && o.drawShape == "line" then o.shrinkRate else 0.0
  }

  /** How much a particle's alpha fades per update: only with fade on. */
  function FadeStep(o: Options): real
  {
    if o.fade then o.fadeRate else 0.0
  }

  /** A particle's state after the set's update: its own update, then shrink and fade. */
  function TickState(o: Options, s: PState, limited: Vec): PState
  {
    UpdateState(o.globalMoveMethod, s, limited).(size := s.size - ShrinkStep(o), alpha := s.alpha - FadeStep(o))
  }

  /** What the set's update may make of one particle, the speed limit choosing the velocity. */
  predicate Ticked(o: Options, s: PState, t: PState)
  {
    t == TickState(o, s, t.vel) &&
    (o.globalMoveMethod == "physics" ==> Clamped(Add(s.vel, s.acc), o.globalSpeedLimit, t.vel))
  }

  /** Each tick counts the particle down by one, shrinks it only for a shrinking line set, fades it
      only for a fading set and moves it only under the physics method. */
  lemma TickEffects(o: Options, s: PState, t: PState)
    requires Ticked(o, s, t)
    ensures t.lifetime == s.lifetime - 1
    ensures t.size == (if o.shrink && o.drawShape == "line" then s.size - o.shrinkRate else s.size)
    ensures t.alpha == (if o.fade then s.alpha - o.fadeRate else s.alpha)
    ensures o.globalMoveMethod != "physics" ==> t.pos == s.pos && t.prevPos == s.prevPos && t.vel == s.vel && t.acc == s.acc
    ensures o.globalMoveMethod == "physics" ==> MagSq(t.vel) <= o.globalSpeedLimit * o.globalSpeedLimit && t.acc == Zero
  {
    UpdateCountsDown(o.globalMoveMethod, o.globalSpeedLimit, s, t.(size := s.size, alpha := s.alpha));
  }

  /** The states of a list of particles, in order. */
  ghost function StatesOf(ps: seq<Particle>): seq<PState>
    reads ps
  {
    seq(|ps|, i requires 0 <= i < |ps| reads ps => ps[i].State())
  }

  /** The set's update applied to every particle: `b[i]` is a possible result of ticking `a[i]`. */
  ghost predicate AllTicked(o: Options, a: seq<PState>, b: seq<PState>)
  {
    |a| == |b| && forall i :: 0 <= i < |a| ==> Ticked(o, a[i], b[i])
  }

  /** `follow(m)` applied to every particle. */
  function FollowAll(m: string, f: Field, o: Options, a: seq<PState>): (b: seq<PState>)
    requires o.scl != 0.0
    ensures |b| == |a|
  {
    seq(|a|, i requires 0 <= i < |a| => FollowState(m, f, o, a[i]))
  }

  /** `edges` applied to every particle. */
  function EdgeAll(c: Canvas, a: seq<PState>): (b: seq<PState>)
    ensures |b| == |a|
  {
    seq(|a|, i requires 0 <= i < |a| => EdgeState(c, a[i]))
  }

  /** A particle's own update followed by the set's shrink and fade is one tick of the set. */
  lemma TickedByParts(o: Options, s0: PState, s1: PState, t: PState)
    requires Updated(o.globalMoveMethod, o.globalSpeedLimit, s0, s1)
    requires t == s1.(size := s1.size - ShrinkStep(o), alpha := s1.alpha - FadeStep(o))
    ensures Ticked(o, s0, t)
  {
  }

  /** A particle exactly as `generateParticles` makes it for this configuration. */
  ghost predicate Spawned(p: Particle, c: Canvas, o: Options, size: real, color: Vec3, alpha: real, lifetime: int)
    reads p
  {
    p.cfg == o && p.moveMethod == o.globalMoveMethod && p.maxspeed == o.globalSpeedLimit &&
    Spawnable(c, o.spawnSpillover, p.pos) && p.prevPos == p.pos && p.vel == Zero && p.acc == Zero &&
    p.size == size && p.color == color && p.alpha == alpha && p.lifetime == lifetime && p.fullLife == lifetime
  }

  function Max(a: int, b: int): int
  {
    if a < b then b else a
  }

  class ParticleSet {
    const numParticles: int
    const size: real
    const color: Vec3
    const alpha: real
    const opts: Options
    /** The lifetime the set was built with; read by the page to restart and to report progress. */
    const originalLifetime: int
    /** The key the page's remove button passes back. */
    const id: int
    var lifetime: int
    var particles: seq<Particle>

    /** The set's particles are distinct objects that belong to this set and carry its options. */
    ghost predicate Valid()
      reads this
    {
      Settled(opts) &&
      (forall i, j :: 0 <= i < j < |particles| ==> particles[i] != particles[j]) &&
      (forall p :: p in particles ==> p.owner == this && p.cfg == opts && p.moveMethod == opts.globalMoveMethod && p.maxspeed == opts.globalSpeedLimit)
    }

    constructor (numParticles: int, lifetime: int, size: real, color: Vec3, alpha: real, options: RawOptions, id: int, c: Canvas)
      ensures Valid()
      ensures this.numParticles == numParticles && this.size == size && this.color == color && this.alpha == alpha
      ensures this.lifetime == lifetime && originalLifetime == lifetime && this.id == id
      ensures opts == Resolve(options)
      ensures |particles| == Max(numParticles, 0)
      ensures forall i :: 0 <= i < |particles| ==> fresh(particles[i]) && Spawned(particles[i], c, opts, size, color, alpha, lifetime)
    {
      this.numParticles := numParticles;
      this.size := size;
      this.color := color;
      this.alpha := alpha;
      opts := Resolve(options);
      originalLifetime := lifetime;
      this.id := id;
      this.lifetime := lifetime;
      particles := [];
      new;
      GenerateParticles(c);
    }

    /** Fill indices 0 .. numParticles-1 with fresh particles; anything stored beyond them stays. */
    method GenerateParticles(c: Canvas)
      requires Valid()
      modifies this
      ensures Valid()
      ensures lifetime == old(lifetime)
      ensures |particles| == Max(numParticles, |old(particles)|)
      ensures forall i :: 0 <= i < numParticles ==> fresh(particles[i]) && Spawned(particles[i], c, opts, size, color, alpha, lifetime)
      ensures forall i :: Max(numParticles, 0) <= i < |particles| ==> particles[i] == old(particles[i])
    {
      var i := 0;
      while i < numParticles
        invariant 0 <= i <= Max(numParticles, 0)
        invariant Valid() && lifetime == old(lifetime)
        invariant |particles| == Max(i, |old(particles)|)
        invariant forall k :: 0 <= k < i ==> fresh(particles[k]) && Spawned(particles[k], c, opts, size, color, alpha, lifetime)
        invariant forall k :: i <= k < |particles| ==> particles[k] == old(particles[k])
      {
        var p := new Particle(size, color, alpha, lifetime, opts, c, this);
        if i < |particles| {
          particles := particles[i := p];
        } else {
          particles := particles + [p];
        }
        i := i + 1;
      }
    }

    /** The body of the update loop for one particle: its own update with no method argument (so
        its own method), then shrink for a shrinking line set and fade for a fading one. */
    method TickParticle(p: Particle)
      requires Settled(opts) && p.cfg == opts && p.moveMethod == opts.globalMoveMethod && p.maxspeed == opts.globalSpeedLimit
      modifies p
      ensures Ticked(opts, old(p.State()), p.State())
    {
      ghost var s0 := p.State();
      p.Update(None);
      ghost var s1 := p.State();
      if opts.shrink && opts.drawShape == "line" {
        p.size := p.size - opts.shrinkRate;
      }
      if opts.fade {
        p.alpha := p.alpha - opts.fadeRate;
      }
      TickedByParts(opts, s0, s1, p.State());
    }

    /** One tick of the set. */
    method Update()
      requires Valid()
      modifies this, particles
      ensures Valid()
      ensures lifetime == old(lifetime) - 1
      ensures particles == if lifetime == 0 then [] else old(particles)
      ensures AllTicked(opts, old(StatesOf(particles)), StatesOf(old(particles)))
    {
      ghost var before := StatesOf(particles);
      var i := 0;
      while i < |particles|
        invariant 0 <= i <= |particles|
        invariant particles == old(particles) && lifetime == old(lifetime)
        invariant forall k :: 0 <= k < i ==> Ticked(opts, before[k], particles[k].State())
        invariant forall k :: i <= k < |particles| ==> particles[k].State() == before[k]
      {
        TickParticle(particles[i]);
        i := i + 1;
      }
      lifetime := lifetime - 1;
      assert AllTicked(opts, before, StatesOf(particles));
      if lifetime == 0 {
        particles := [];
      }
    }

    /** `follow(flowfield)` hands its argument to every particle as the method; with no argument
        each particle uses its own (the set's) method. */
    method Follow(flowfield: Option<string>, f: Field)
      requires Valid()
      modifies particles
      ensures StatesOf(particles) == FollowAll(if flowfield.Some? then flowfield.value else opts.globalMoveMethod, f, opts, old(StatesOf(particles)))
    {
      ghost var m := if flowfield.Some? then flowfield.value else opts.globalMoveMethod;
      ghost var before := StatesOf(particles);
      ghost var target := FollowAll(m, f, opts, before);
      var i := 0;
      while i < |particles|
        invariant Reached(i, target, before)
      {
        FollowStep(i, flowfield, f, m, target, before);
        i := i + 1;
      }
      assert StatesOf(particles) == target;
    }

    /** The first `i` particles are in their `target` states, the others still in `before`. */
    ghost predicate Reached(i: int, target: seq<PState>, before: seq<PState>)
      reads this, particles
    {
      0 <= i <= |particles| && |target| == |before| == |particles| &&
      forall k :: 0 <= k < |particles| ==> particles[k].State() == if k < i then target[k] else before[k]
    }

    /** One iteration of the follow loop: particle `i` follows by `m` and reaches its target. */
    method FollowStep(i: int, flowfield: Option<string>, f: Field, ghost m: string, ghost target: seq<PState>, ghost before: seq<PState>)
      requires Valid() && Reached(i, target, before) && i < |particles|
      requires m == if flowfield.Some? then flowfield.value else opts.globalMoveMethod
      requires target[i] == FollowState(m, f, opts, before[i])
      modifies particles[i]
      ensures Reached(i + 1, target, before)
    {
      var p := particles[i];
      p.Follow(flowfield, f);
      forall k | 0 <= k < |particles| && k != i
        ensures particles[k].State() == old(particles[k].State())
      {
        assert particles[k] != p;
      }
    }

    /** Wrap every particle, but only when the set has edge wrapping on. */
    method Edges(c: Canvas)
      requires Valid()
      modifies particles
      ensures StatesOf(particles) == if opts.edgeWrap then EdgeAll(c, old(StatesOf(particles))) else old(StatesOf(particles))
    {
      if opts.edgeWrap == true {
        var i := 0;
        while i < |particles|
          invariant 0 <= i <= |particles|
          invariant forall k :: 0 <= k < i ==> particles[k].State() == EdgeState(c, old(particles[k].State()))
          invariant forall k :: i <= k < |particles| ==> particles[k].State() == old(particles[k].State())
        {
          particles[i].Edges(c);
          i := i + 1;
        }
        assert StatesOf(particles) == EdgeAll(c, old(StatesOf(particles)));
      }
    }

    /** What `show` draws: one mark per particle, in array order. */
    function Drawn(): (marks: seq<Option<Mark>>)
      reads this, particles
      ensures |marks| == |particles|
      ensures forall i :: 0 <= i < |particles| ==> marks[i] == particles[i].Show()
    {
      seq(|particles|, i requires 0 <= i < |particles| reads this, particles => particles[i].Show())
    }
  }
}
