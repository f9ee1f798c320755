/** An ordered playlist of particle sets (ParticleSequence.js): a cursor `curr` over the sets that
    ticks the current set once per `Execute` and moves on when that set's lifetime is at most 0. */
module Sequences {
  import opened Wrappers
  import opened Vectors
  import opened Config
  import opened Particles
  import opened ParticleSets

  // ---------------------------------------------------------------- the cursor machine

  /** What `Execute` looks at and changes in the sets: their lifetimes and the cursor. */
  datatype Cursor = Cursor(lifetimes: seq<int>, curr: int)

  predicate Running(t: Cursor)
  {
    0 <= t.curr < |t.lifetimes|
  }

  /** One `Execute`: the current set counts down, and the cursor moves past it once its lifetime
      is at most 0; a finished sequence stays as it is. */
  function Step(t: Cursor): (u: Cursor)
    ensures |u.lifetimes| == |t.lifetimes|
    ensures !Running(t) ==> u == t
    ensures Running(t) ==> u.lifetimes == t.lifetimes[t.curr := t.lifetimes[t.curr] - 1]
    ensures Running(t) ==> (u.curr == t.curr + 1 <==> t.lifetimes[t.curr] - 1 <= 0)
    ensures u.curr == t.curr || u.curr == t.curr + 1
  {
    if Running(t) then
      var l := t.lifetimes[t.curr] - 1;
      Cursor(t.lifetimes[t.curr := l], if l <= 0 then t.curr + 1 else t.curr)
    else t
  }

  /** `k` calls of `Execute`. */
  function Run(t: Cursor, k: nat): Cursor
    decreases k
  {
    if k == 0 then t else Run(Step(t), k - 1)
  }

  /** How many calls a set keeps the cursor: its lifetime, but at least one call. */
  function Dwell(l: int): nat
  {
    if l >= 1 then l else 1
  }

  /** The calls needed to run the sets from index `c` on to the end. */
  function CallsFrom(ls: seq<int>, c: nat): nat
    decreases |ls| - c
  {
    if c >= |ls| then 0 else Dwell(ls[c]) + CallsFrom(ls, c + 1)
  }

  /** The cursor never goes back, and moves by at most one set per call. */
  lemma {:induction false} RunMonotone(t: Cursor, k: nat)
    ensures t.curr <= Run(t, k).curr <= t.curr + k
    ensures |Run(t, k).lifetimes| == |t.lifetimes|
    decreases k
  {
    if k > 0 {
      RunMonotone(Step(t), k - 1);
    }
  }

  lemma {:induction false} RunAdd(t: Cursor, a: nat, b: nat)
    ensures Run(t, a + b) == Run(Run(t, a), b)
    decreases a
  {
    if a > 0 {
      RunAdd(Step(t), a - 1, b);
    }
  }

  /** A set with lifetime L stays current for exactly Dwell(L) calls: after j < Dwell(L) calls
      the cursor is still on it, after Dwell(L) calls it has moved to the next set, and the set
      has been counted down once per call. */
  lemma {:induction false} StaysCurrent(ls: seq<int>, c: nat, j: nat)
    requires c < |ls| && j <= Dwell(ls[c])
    ensures Run(Cursor(ls, c), j) == Cursor(ls[c := ls[c] - j], if j == Dwell(ls[c]) then c + 1 else c)
  {
    if j > 0 {
      StaysCurrent(ls, c, j - 1);
      RunAdd(Cursor(ls, c), j - 1, 1);
      assert Run(Cursor(ls[c := ls[c] - (j - 1)], c), 1) == Step(Cursor(ls[c := ls[c] - (j - 1)], c));
      assert ls[c := ls[c] - (j - 1)][c := ls[c] - j] == ls[c := ls[c] - j];
    }
  }

  /** Counting down a set before `c` leaves the calls still needed from `c` on unchanged. */
  lemma {:induction false} CallsFromIgnoresEarlier(ls: seq<int>, i: nat, x: int, c: nat)
    requires i < c <= |ls|
    ensures CallsFrom(ls[i := x], c) == CallsFrom(ls, c)
    decreases |ls| - c
  {
    if c < |ls| {
      CallsFromIgnoresEarlier(ls, i, x, c + 1);
    }
  }

  /** From set `c` on, the sequence completes after exactly CallsFrom(ls, c) calls: every
      earlier call finds it still running, and that call leaves the cursor past the last set. */
  lemma {:induction false} CompletesAfter(ls: seq<int>, c: nat, k: nat)
    requires c <= |ls|
    ensures k < CallsFrom(ls, c) ==> Running(Run(Cursor(ls, c), k))
    ensures k == CallsFrom(ls, c) ==> Run(Cursor(ls, c), k).curr == |ls|
    decreases |ls| - c
  {
    if c == |ls| {
      assert Run(Cursor(ls, c), 0) == Cursor(ls, c);
    } else {
      var d := Dwell(ls[c]);
      var ls' := ls[c := ls[c] - d];
      if k < d {
        StaysCurrent(ls, c, k);
      } else if k <= CallsFrom(ls, c) {
        StaysCurrent(ls, c, d);
        RunAdd(Cursor(ls, c), d, k - d);
        CallsFromIgnoresEarlier(ls, c, ls[c] - d, c + 1);
        CompletesAfter(ls', c + 1, k - d);
      }
    }
  }

  /** A fresh sequence over sets with lifetimes `ls` needs Σ Dwell(lᵢ) calls to complete. */
  lemma SequenceDuration(ls: seq<int>, k: nat)
    ensures k < CallsFrom(ls, 0) <==> Running(Run(Cursor(ls, 0), k))
    ensures Run(Cursor(ls, 0), CallsFrom(ls, 0)).curr == |ls|
  {
    CompletesAfter(ls, 0, CallsFrom(ls, 0));
    if k < CallsFrom(ls, 0) {
      CompletesAfter(ls, 0, k);
    } else {
      RunMonotone(Cursor(ls, 0), CallsFrom(ls, 0));
      RunAdd(Cursor(ls, 0), CallsFrom(ls, 0), k - CallsFrom(ls, 0));
      StaysDone(Run(Cursor(ls, 0), CallsFrom(ls, 0)), k - CallsFrom(ls, 0));
    }
  }

  /** Once the cursor is past the last set, further calls change nothing. */
  lemma {:induction false} StaysDone(t: Cursor, k: nat)
    requires !Running(t)
    ensures Run(t, k) == t
    decreases k
  {
    if k > 0 {
      StaysDone(Step(t), k - 1);
    }
  }

  // ---------------------------------------------------------------- one particle per call

  /** What one `Execute` does to a particle of the current set that survives the update: the
      set's update (the speed limit choosing the velocity), then its follow with the particle's
      own method, then its edges. */
  predicate Stepped(o: Options, f: Field, c: Canvas, s: PState, t: PState)
    requires Settled(o)
  {
    var ticked := TickState(o, s, t.vel);
    var followed := FollowState(o.globalMoveMethod, f, o, ticked);
    t == (if o.edgeWrap then EdgeState(c, followed) else followed) &&
    (o.globalMoveMethod == "physics" ==> Clamped(Add(s.vel, s.acc), o.globalSpeedLimit, t.vel))
  }

  ghost predicate AllStepped(o: Options, f: Field, c: Canvas, a: seq<PState>, b: seq<PState>)
    requires Settled(o)
  {
    |a| == |b| && forall i :: 0 <= i < |a| ==> Stepped(o, f, c, a[i], b[i])
  }

  /** Update, then follow, then edges, each over the whole set, is one `Stepped` per particle:
      follow and edges leave the velocity that the update chose. */
  lemma ComposeFrame(o: Options, f: Field, c: Canvas, s0: seq<PState>, s1: seq<PState>, s2: seq<PState>, s3: seq<PState>)
    requires Settled(o)
    requires AllTicked(o, s0, s1)
    requires s2 == FollowAll(o.globalMoveMethod, f, o, s1)
    requires s3 == if o.edgeWrap then EdgeAll(c, s2) else s2
    ensures AllStepped(o, f, c, s0, s3)
  {
    forall i | 0 <= i < |s0|
      ensures Stepped(o, f, c, s0[i], s3[i])
    {
      FollowMoves(o.globalMoveMethod, f, o, s1[i]);
      assert s3[i].vel == s1[i].vel;
    }
  }

  /** The body of `execute` for the current set: draw it, update it, let it follow with its own
      method, wrap it. What is drawn is the state before the update. */
  method PlayFrame(s: ParticleSet, f: Field, c: Canvas) returns (frame: seq<Option<Mark>>)
    requires s.Valid()
    modifies s, s.particles
    ensures s.Valid() && s.lifetime == old(s.lifetime) - 1
    ensures frame == old(s.Drawn())
    ensures s.particles == (if s.lifetime == 0 then [] else old(s.particles))
    ensures s.lifetime != 0 ==> AllStepped(s.opts, f, c, old(StatesOf(s.particles)), StatesOf(s.particles))
  {
    frame := s.Drawn();
    ghost var s0 := StatesOf(s.particles);
    s.Update();
    ghost var s1 := StatesOf(s.particles);
    s.Follow(None, f);
    ghost var s2 := StatesOf(s.particles);
    s.Edges(c);
    if s.lifetime != 0 {
      ComposeFrame(s.opts, f, c, s0, s1, s2, StatesOf(s.particles));
    }
  }

  // ---------------------------------------------------------------- the class

  class ParticleSequence {
    var sets: seq<ParticleSet>
    var curr: int

    /** Distinct valid sets (so their particles are disjoint) and a cursor within 0 .. |sets|. */
    ghost predicate Valid()
      reads this, sets
    {
      0 <= curr <= |sets| &&
      (forall i, j :: 0 <= i < j < |sets| ==> sets[i] != sets[j]) &&
      (forall i :: 0 <= i < |sets| ==> sets[i].Valid())
    }

    ghost function Progress(): Cursor
      reads this, sets
    {
      Cursor(seq(|sets|, i requires 0 <= i < |sets| reads this, sets => sets[i].lifetime), curr)
    }

    /** The objects that one `Execute` may change: the current set and its particles. */
    ghost function Live(): set<object>
      reads this, sets
    {
      if 0 <= curr < |sets| then {sets[curr] as object} + set p | p in sets[curr].particles :: p as object
      else {}
    }

    /** The sequence holds the caller's list of sets, starting at the first. */
    constructor (sets: seq<ParticleSet>)
      ensures this.sets == sets && curr == 0
    {
      this.sets := sets;
      curr := 0;
    }

    /** One frame: draw, update, follow and wrap the current set, then move on if it is spent.
        Returns what was drawn, which is the state before this frame's update. Only the current
        set and its particles may change. */
    method Execute(f: Field, c: Canvas) returns (frame: seq<Option<Mark>>)
      requires Valid()
      modifies this, Live()
      ensures Valid() && sets == old(sets)
      ensures forall k :: 0 <= k < |sets| && k != old(curr) ==>
        sets[k].lifetime == old(sets[k].lifetime) && sets[k].particles == old(sets[k].particles)
      ensures old(curr) < |sets| ==> sets[old(curr)].lifetime == old(sets[curr].lifetime) - 1
      ensures curr == if old(curr) < |sets| && sets[old(curr)].lifetime <= 0 then old(curr) + 1 else old(curr)
      ensures old(curr) == |sets| ==> frame == []
      ensures old(curr) < |sets| ==> frame == old(sets[curr].Drawn())
      ensures old(curr) < |sets| ==> var s := sets[old(curr)];
        s.particles == (if s.lifetime == 0 then [] else old(s.particles)) &&
        (s.lifetime != 0 ==> AllStepped(s.opts, f, c, old(StatesOf(s.particles)), StatesOf(s.particles)))
    {
      if curr >= |sets| {
        frame := [];
        return;
      }
      var s := sets[curr];
      assert s in Live() && forall p :: p in s.particles ==> p in Live();
      ghost var k0 := curr;
      frame := PlayFrame(s, f, c);
      forall k | 0 <= k < |sets| && k != k0
        ensures unchanged(sets[k])
      {
        assert sets[k] != s;
      }
      if s.lifetime <= 0 {
        curr := curr + 1;
      }
    }
  }

  /** One `Execute` is one step of the cursor machine. */
  twostate lemma ExecuteIsStep(q: ParticleSequence)
    requires old(q.Valid()) && q.sets == old(q.sets)
    requires forall k :: 0 <= k < |q.sets| && k != old(q.curr) ==> q.sets[k].lifetime == old(q.sets[k].lifetime)
    requires old(q.curr) < |q.sets| ==> q.sets[old(q.curr)].lifetime == old(q.sets[q.curr].lifetime) - 1
    requires q.curr == if old(q.curr) < |q.sets| && q.sets[old(q.curr)].lifetime <= 0 then old(q.curr) + 1 else old(q.curr)
    ensures q.Progress() == Step(old(q.Progress()))
  {
  }
}
