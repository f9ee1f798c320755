/** One moving point (Particle.js). A particle keeps its own lifetime countdown, moves by a
    physics step (velocity plus acceleration, then a speed limit) or by a direct step taken in
    `Follow`, wraps around the canvas edges and computes the size at which it is drawn.
    The reference to the owning set is replaced by `cfg`, a copy of the set's options: the
    set never changes them after construction, so the copy reads what the reference would. */
module Particles {
  import opened Wrappers
  import opened Vectors
  import opened Config

  /** p5's `width` and `height`; a canvas is never of negative size. */
  datatype Dims = Dims(width: real, height: real)
  type Canvas = c: Dims | c.width >= 0.0 && c.height >= 0.0 witness Dims(0.0, 0.0)

  type Unit = r: real | 0.0 <= r < 1.0

  /** The library calls that steer a particle: p5's `noise` (a deterministic field with values in
      [0, 1)) and `p5.Vector.fromAngle` (a unit vector for an angle). */
  datatype Field = Field(noise: (real, real) -> Unit, fromAngle: real -> Direction)

  /** p5's TWO_PI as a double. */
  const TwoPi: real := 6.283185307179586

  /** The page script's globals `noiseScale` and `magnitude` (script.js:6-7), which the physics
      follow reads instead of the owning set's options. */
  const GlobalNoiseScale: real := 0.01
  const GlobalMagnitude: real := 1.0

  /** The fields of a particle that change after construction. */
  datatype PState = PState(pos: Vec, prevPos: Vec, vel: Vec, acc: Vec, size: real, alpha: real, lifetime: int)

  // ---------------------------------------------------------------- spawning

  /** `random(a, b)` of p5: the bounds are swapped when a > b, and the upper bound is excluded
      unless the range is a single point. */
  predicate InRandomRange(a: real, b: real, v: real)
  {
    var lo := if a <= b then a else b;
    var hi := if a <= b then b else a;
    lo <= v && (v < hi || v == lo)
  }

  /** A spawn position: each coordinate drawn from the canvas widened by `spill` on both sides. */
  predicate Spawnable(c: Canvas, spill: real, p: Vec)
  {
    InRandomRange(-spill, c.width + spill, p.x) && InRandomRange(-spill, c.height + spill, p.y)
  }

  // ---------------------------------------------------------------- movement rules

  /** The physics step of `updatePhysics`, given the velocity that `limit` chose: the previous
      position is the old position, the position moves by the velocity before limiting, and the
      acceleration is cleared. */
  function Integrated(s: PState, limited: Vec): (t: PState)
    ensures t.prevPos == s.pos && t.acc == Zero && t.vel == limited
    ensures Sub(t.pos, s.pos) == Add(s.vel, s.acc)
    ensures t.size == s.size && t.alpha == s.alpha && t.lifetime == s.lifetime
  {
    s.(prevPos := s.pos, pos := Add(s.pos, Add(s.vel, s.acc)), vel := limited, acc := Zero)
  }

  /** The state after `update(m)` when the speed limit picked `limited`. */
  function UpdateState(m: string, s: PState, limited: Vec): (t: PState)
    ensures t.lifetime == s.lifetime - 1
    ensures t.size == s.size && t.alpha == s.alpha
    ensures m != "physics" ==> t == s.(lifetime := s.lifetime - 1)
  {
    (if m == "physics" then Integrated(s, limited) else s).(lifetime := s.lifetime - 1)
  }

  /** What `update(m)` may produce from `s`: the physics rule with a velocity that obeys the speed
      limit, or, for "direct" and any unrecognised method, nothing but the countdown. */
  predicate Updated(m: string, maxspeed: real, s: PState, t: PState)
  {
    t == UpdateState(m, s, t.vel) &&
    (m == "physics" ==> Clamped(Add(s.vel, s.acc), maxspeed, t.vel))
  }

  /** The angle `noise(x, y) * angleMult * TWO_PI` turned into a step of length |mag|. */
  function Steer(f: Field, x: real, y: real, angleMult: real, mag: real): (v: Vec)
    ensures MagSq(v) == mag * mag
  {
    SetMag(f.fromAngle(f.noise(x, y) * angleMult * TwoPi), mag)
  }

  /** The step of `followDirect`: noise sampled at the position scaled by the set's noiseScale,
      length the set's magnitude. */
  function DirectStep(f: Field, o: Options, pos: Vec): (v: Vec)
    ensures MagSq(v) == o.magnitude * o.magnitude
  {
    Steer(f, pos.x * o.noiseScale, pos.y * o.noiseScale, o.angleMult, o.magnitude)
  }

  /** The force of `followPhysics`: noise sampled at the grid cell `floor(pos / scl)` scaled by
      the page's global noiseScale, length the page's global magnitude. */
  function PhysicsForce(f: Field, o: Options, pos: Vec): (v: Vec)
    requires o.scl != 0.0
    ensures MagSq(v) == GlobalMagnitude * GlobalMagnitude
  {
    var cx := (pos.x / o.scl).Floor;
    var cy := (pos.y / o.scl).Floor;
    Steer(f, cx as real * GlobalNoiseScale, cy as real * GlobalNoiseScale, o.angleMult, GlobalMagnitude)
  }

  /** The state after `follow(m)`. */
  function FollowState(m: string, f: Field, o: Options, s: PState): (t: PState)
    requires o.scl != 0.0
    ensures m != "physics" && m != "direct" ==> t == s
  {
    if m == "physics" then s.(acc := Add(s.acc, PhysicsForce(f, o, s.pos)))
    else if m == "direct" then s.(prevPos := s.pos, pos := Add(s.pos, DirectStep(f, o, s.pos)))
    else s
  }

  /** One coordinate after `edges`: beyond the far edge it jumps to 0, below 0 it jumps to the
      far edge; the far edge itself is kept. */
  function WrapCoord(v: real, extent: real): real
  {
    if v > extent then 0.0 else if v < 0.0 then extent else v
  }

  predicate Outside(v: real, extent: real)
  {
    v > extent || v < 0.0
  }

  /** The state after `edges`: wrapped coordinates, and the trail cut whenever a wrap happened. */
  function EdgeState(c: Canvas, s: PState): (t: PState)
    ensures t.vel == s.vel && t.acc == s.acc && t.size == s.size && t.alpha == s.alpha && t.lifetime == s.lifetime
  {
    var p := Vec(WrapCoord(s.pos.x, c.width), WrapCoord(s.pos.y, c.height));
    var wrapped := Outside(s.pos.x, c.width) || Outside(s.pos.y, c.height);
    s.(pos := p, prevPos := if wrapped then p else s.prevPos)
  }

  // ---------------------------------------------------------------- drawn size

  /** p5's `map(v, 0, full, 0, size)`: the linear map sending 0 to 0 and `full` to `size`, not clamped. */
  function Map(v: real, full: real, size: real): (r: real)
    requires full != 0.0
    ensures v == full ==> r == size
    ensures v == 0.0 ==> r == 0.0
  {
    (v - 0.0) / (full - 0.0) * (size - 0.0) + 0.0
  }

  /** The size `r` that `show` passes to arc, ellipse and square. None where JavaScript would
      produce no number: an unrecognised `shapeSize` leaves `r` undefined, and the relative mode
      divides by a zero full life. */
  function ShapeSize(shrink: bool, mode: string, lifetime: int, fullLife: int, size: real): (r: Option<real>)
    ensures !shrink ==> r == Some(size)
    ensures shrink && mode == "direct" ==> r == Some(lifetime as real)
    ensures shrink && mode == "relative" && fullLife != 0 && lifetime == fullLife ==> r == Some(size)
    ensures shrink && mode == "relative" && fullLife != 0 && lifetime == 0 ==> r == Some(0.0)
    ensures r.None? <==> shrink && mode != "direct" && (mode == "relative" ==> fullLife == 0)
  {
    if !shrink then Some(size)
    else if mode == "relative" then
      if fullLife == 0 then None else Some(Map(lifetime as real, fullLife as real, size))
    else if mode == "direct" then Some(lifetime as real)
    else None
  }

  /** What one particle's `show` draws: a line of width `size` from the position to the previous
      position, or an arc, circle or square of size `ShapeSize` at the position; nothing for an
      unrecognised shape. */
  datatype Mark = Mark(shape: string, pos: Vec, prevPos: Vec, weight: real, extent: Option<real>, color: Vec3, alpha: real)

  function MarkOf(o: Options, color: Vec3, fullLife: int, s: PState): (m: Option<Mark>)
    ensures m.Some? <==> o.drawShape in {"line", "arc", "circle", "square"}
    ensures m.Some? ==> m.value.pos == s.pos && m.value.weight == s.size && m.value.alpha == s.alpha
    ensures m.Some? && o.drawShape != "line" ==>
      m.value.extent == ShapeSize(o.shrink, o.shapeSize, s.lifetime, fullLife, s.size)
  {
    if o.drawShape == "line" then Some(Mark("line", s.pos, s.prevPos, s.size, None, color, s.alpha))
    else if o.drawShape in {"arc", "circle", "square"} then
      Some(Mark(o.drawShape, s.pos, s.prevPos, s.size, ShapeSize(o.shrink, o.shapeSize, s.lifetime, fullLife, s.size), color, s.alpha))
    else None
  }


  // ---------------------------------------------------------------- properties of the rules

  /** Every update counts down by exactly one, whatever the method; "direct" and unrecognised
      methods change nothing else, and the physics rule integrates with the unlimited velocity,
      then leaves a velocity within the speed limit and no acceleration. */
  lemma UpdateCountsDown(m: string, maxspeed: real, s: PState, t: PState)
    requires Updated(m, maxspeed, s, t)
    ensures t.lifetime == s.lifetime - 1
    ensures m != "physics" ==> t.pos == s.pos && t.prevPos == s.prevPos && t.vel == s.vel && t.acc == s.acc
    ensures m == "physics" ==> t.prevPos == s.pos && t.pos == Add(s.pos, Add(s.vel, s.acc)) && t.acc == Zero
    ensures m == "physics" ==> MagSq(t.vel) <= maxspeed * maxspeed
    ensures m == "physics" && MagSq(Add(s.vel, s.acc)) <= maxspeed * maxspeed ==> t.vel == Add(s.vel, s.acc)
  {
  }

  /** `edges` leaves both coordinates on the canvas, keeps a coordinate lying exactly on the far
      edge, cuts the trail when it wraps and changes nothing when no coordinate is outside. */
  lemma EdgesWrap(c: Canvas, s: PState)
    ensures var t := EdgeState(c, s);
      0.0 <= t.pos.x <= c.width && 0.0 <= t.pos.y <= c.height &&
      (s.pos.x == c.width ==> t.pos.x == c.width) &&
      (s.pos.y == c.height ==> t.pos.y == c.height) &&
      (s.pos.x > c.width ==> t.pos.x == 0.0) &&
      (s.pos.x < 0.0 ==> t.pos.x == c.width) &&
      (s.pos.y > c.height ==> t.pos.y == 0.0) &&
      (s.pos.y < 0.0 ==> t.pos.y == c.height) &&
      ((Outside(s.pos.x, c.width) || Outside(s.pos.y, c.height)) ==> t.prevPos == t.pos) &&
      (!Outside(s.pos.x, c.width) && !Outside(s.pos.y, c.height) ==> t == s) &&
      t.vel == s.vel && t.acc == s.acc && t.size == s.size && t.alpha == s.alpha && t.lifetime == s.lifetime
  {
  }

  /** Wrapping is idempotent: a wrapped particle is on the canvas and a second `edges` keeps it. */
  lemma EdgesIdempotent(c: Canvas, s: PState)
    ensures EdgeState(c, EdgeState(c, s)) == EdgeState(c, s)
  {
    EdgesWrap(c, s);
    EdgesWrap(c, EdgeState(c, s));
  }

  /** `followDirect` moves by a step of length |magnitude| and records the old position;
      `followPhysics` changes only the acceleration; other methods change nothing. */
  lemma FollowMoves(m: string, f: Field, o: Options, s: PState)
    requires o.scl != 0.0
    ensures var t := FollowState(m, f, o, s);
      t.vel == s.vel && t.size == s.size && t.alpha == s.alpha && t.lifetime == s.lifetime &&
      (m == "direct" ==> t.prevPos == s.pos && MagSq(Sub(t.pos, s.pos)) == o.magnitude * o.magnitude && t.acc == s.acc) &&
      (m == "physics" ==>
         t.pos == s.pos && t.prevPos == s.prevPos && MagSq(Sub(t.acc, s.acc)) == GlobalMagnitude * GlobalMagnitude)
  {
    if m == "direct" {
      assert Sub(Add(s.pos, DirectStep(f, o, s.pos)), s.pos) == DirectStep(f, o, s.pos);
    } else if m == "physics" {
      assert Sub(Add(s.acc, PhysicsForce(f, o, s.pos)), s.acc) == PhysicsForce(f, o, s.pos);
    }
  }

  /** The physics force reads the page's globals: two option blocks that differ only in their
      own `magnitude` and `noiseScale` steer a particle identically. */
  lemma PhysicsIgnoresSetMagnitude(f: Field, o: Options, mag: real, ns: real, pos: Vec)
    requires o.scl != 0.0
    ensures PhysicsForce(f, o.(magnitude := mag, noiseScale := ns), pos) == PhysicsForce(f, o, pos)
  {
  }

  /** The relative size is linear in the lifetime: each tick takes `size / fullLife` off, and it
      is not clamped, so it turns negative once the lifetime does. */
  lemma RelativeSizeLinear(lifetime: int, fullLife: int, size: real)
    requires fullLife != 0
    ensures ShapeSize(true, "relative", lifetime, fullLife, size).Some?
    ensures ShapeSize(true, "relative", lifetime, fullLife, size).value -
            ShapeSize(true, "relative", lifetime - 1, fullLife, size).value == size / fullLife as real
    ensures lifetime < 0 && fullLife > 0 && size > 0.0 ==> ShapeSize(true, "relative", lifetime, fullLife, size).value < 0.0
  {
    var l := lifetime as real;
    var f := fullLife as real;
    assert Map(l, f, size) == l / f * size;
    assert Map(l - 1.0, f, size) == (l - 1.0) / f * size;
    assert (l - 1.0) / f == l / f - 1.0 / f;
    assert l / f * size - (l / f - 1.0 / f) * size == size / f;
    if lifetime < 0 && fullLife > 0 && size > 0.0 {
      assert l / f < 0.0;
    }
  }

  // ---------------------------------------------------------------- the class

  class Particle {
    /** The owning set (`parent` in the source), kept only for the proofs. */
    ghost const owner: object
    const cfg: Options
    const maxspeed: real
    const color: Vec3
    const moveMethod: string
    const fullLife: int
    var pos: Vec
    var prevPos: Vec
    var vel: Vec
    var acc: Vec
    var size: real
    var alpha: real
    var lifetime: int

    function State(): PState
      reads this
    {
      PState(pos, prevPos, vel, acc, size, alpha, lifetime)
    }

    /** A particle spawned somewhere in the widened canvas, at rest, with a full lifetime. */
    constructor (size: real, color: Vec3, alpha: real, lifetime: int, cfg: Options, c: Canvas, ghost owner: object)
      ensures this.owner == owner && this.cfg == cfg && this.color == color
      ensures Spawnable(c, cfg.spawnSpillover, pos) && prevPos == pos
      ensures vel == Zero && acc == Zero
      ensures this.size == size && this.alpha == alpha
      ensures this.lifetime == lifetime && fullLife == lifetime
      ensures maxspeed == cfg.globalSpeedLimit && moveMethod == cfg.globalMoveMethod
    {
      this.owner := owner;
      this.cfg := cfg;
      maxspeed := cfg.globalSpeedLimit;
      this.color := color;
      moveMethod := cfg.globalMoveMethod;
      fullLife := lifetime;
      var spill := cfg.spawnSpillover;
      assert InRandomRange(-spill, c.width + spill, if -spill <= c.width + spill then -spill else c.width + spill);
      var x :| InRandomRange(-spill, c.width + spill, x);
      assert InRandomRange(-spill, c.height + spill, if -spill <= c.height + spill then -spill else c.height + spill);
      var y :| InRandomRange(-spill, c.height + spill, y);
      pos := Vec(x, y);
      vel := Zero;
      acc := Zero;
      this.size := size;
      this.alpha := alpha;
      prevPos := Vec(x, y);
      this.lifetime := lifetime;
    }

    /** `update(method = this.method)`: move by the chosen rule, then count down. */
    method Update(m: Option<string>)
      modifies this
      ensures Updated(if m.Some? then m.value else moveMethod, maxspeed, old(State()), State())
    {
      var rule := if m.Some? then m.value else moveMethod;
      if rule == "physics" {
        UpdatePhysics();
      } else if rule == "direct" {
        UpdateDirect();
      }
      lifetime := lifetime - 1;
    }

    /** The semi-implicit Euler step; the position uses the velocity before it is limited. */
    method UpdatePhysics()
      modifies this
      ensures Clamped(Add(old(vel), old(acc)), maxspeed, vel)
      ensures State() == Integrated(old(State()), vel)
    {
      prevPos := pos;
      vel := Add(vel, acc);
      pos := Add(pos, vel);
      vel := Limit(vel, maxspeed);
      acc := Scale(acc, 0.0);
    }

    /** Direct movement happens in `FollowDirect`; this step leaves the particle as it is. */
    method UpdateDirect()
      ensures State() == old(State())
    {
    }

    method ApplyForce(force: Vec)
      modifies this
      ensures acc == Add(old(acc), force)
      ensures pos == old(pos) && prevPos == old(prevPos) && vel == old(vel)
      ensures size == old(size) && alpha == old(alpha) && lifetime == old(lifetime)
    {
      acc := Add(acc, force);
    }

    method UpdatePrev()
      modifies this
      ensures State() == old(State()).(prevPos := pos)
    {
      prevPos := Vec(pos.x, pos.y);
    }

    /** Wrap each coordinate that left the canvas to the opposite edge, cutting the trail. */
    method Edges(c: Canvas)
      modifies this
      ensures State() == EdgeState(c, old(State()))
    {
      if pos.x > c.width {
        pos := pos.(x := 0.0);
        UpdatePrev();
      }
      if pos.x < 0.0 {
        pos := pos.(x := c.width);
        UpdatePrev();
      }
      if pos.y > c.height {
        pos := pos.(y := 0.0);
        UpdatePrev();
      }
      if pos.y < 0.0 {
        pos := pos.(y := c.height);
        UpdatePrev();
      }
    }

    /** `follow(method = this.method)`: steer by the chosen rule; an unrecognised one does nothing. */
    method Follow(m: Option<string>, f: Field)
      requires cfg.scl != 0.0
      modifies this
      ensures State() == FollowState(if m.Some? then m.value else moveMethod, f, cfg, old(State()))
    {
      var rule := if m.Some? then m.value else moveMethod;
      if rule == "physics" {
        FollowPhysics(f);
      } else if rule == "direct" {
        FollowDirect(f);
      }
    }

    method FollowPhysics(f: Field)
      requires cfg.scl != 0.0
      modifies this
      ensures State() == old(State()).(acc := Add(old(acc), PhysicsForce(f, cfg, old(pos))))
    {
      var v := PhysicsForce(f, cfg, pos);
      ApplyForce(v);
    }

    method FollowDirect(f: Field)
      modifies this
      ensures State() == old(State()).(prevPos := old(pos), pos := Add(old(pos), DirectStep(f, cfg, old(pos))))
    {
      prevPos := prevPos.(x := pos.x);
      prevPos := prevPos.(y := pos.y);
      var force := DirectStep(f, cfg, pos);
      pos := pos.(x := pos.x + force.x);
      pos := pos.(y := pos.y + force.y);
    }

    /** What `show` draws for this particle. */
    function Show(): (m: Option<Mark>)
      reads this
      ensures m.Some? <==> cfg.drawShape in {"line", "arc", "circle", "square"}
      ensures m.Some? ==> m.value.pos == pos && m.value.prevPos == prevPos && m.value.weight == size
      ensures m.Some? ==> m.value.color == color && m.value.alpha == alpha
    {
      MarkOf(cfg, color, fullLife, State())
    }
  }
}
