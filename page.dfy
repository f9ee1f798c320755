/** The page script's state and the operations on it that the animation depends on
    (script.js): loading a preset, starting the animation, removing a set, the per-frame stop
    test and the status labels of the set list. The globals `particleSets`,
    `particleSequence` and `isRunning` are the fields of one `PageState` object. */
module Page {
  import opened Wrappers
  import opened Vectors
  import opened Config
  import opened Particles
  import opened ParticleSets
  import opened Sequences

  // ---------------------------------------------------------------- status labels

  datatype Status = Active | Completed | Waiting

  /** The label colours: '#4ade80', '#6b7280' and '#fbbf24'. */
  datatype Tint = Green | Grey | Amber

  /** The text after "Set n": `curr` is None when there is no sequence, which counts as 0. */
  function StatusOf(index: nat, curr: Option<int>, running: bool): (s: Status)
    ensures s == Active <==> running && curr == Some(index)
    ensures s == Completed <==> curr.Some? && index < curr.value
  {
    var isActive := curr == Some(index);
    if isActive && running then Active
    else if index < (if curr.Some? then curr.value else 0) then Completed
    else Waiting
  }

  /** The label's colour, which looks only at the cursor, not at whether the animation runs. */
  function TintOf(index: nat, curr: Option<int>): (t: Tint)
    ensures t == Green <==> curr == Some(index)
    ensures t == Grey <==> curr.Some? && index < curr.value
  {
    var isActive := curr == Some(index);
    if isActive then Green
    else if index < (if curr.Some? then curr.value else 0) then Grey
    else Amber
  }

  /** A stopped animation shows the set under the cursor as waiting, in the active colour. */
  lemma StoppedCurrentIsGreenWaiting(index: nat)
    ensures StatusOf(index, Some(index), false) == Waiting && TintOf(index, Some(index)) == Green
  {
  }

  /** The lifetime shown in the list: `Math.max(lifetime, 0)`. */
  function ShownLifetime(lifetime: int): (n: nat)
    ensures lifetime >= 0 ==> n == lifetime
    ensures lifetime < 0 ==> n == 0
  {
    if lifetime < 0 then 0 else lifetime
  }

  /** The shown lifetime counts down with each update until it sticks at 0. */
  lemma ShownLifetimeCountsDown(lifetime: int)
    ensures ShownLifetime(lifetime - 1) == if lifetime > 0 then ShownLifetime(lifetime) - 1 else 0
  {
  }

  /** How many of the first `n` sets carry label `st`. */
  function CountStatus(n: nat, curr: Option<int>, running: bool, st: Status): nat
  {
    if n == 0 then 0
    else CountStatus(n - 1, curr, running, st) + (if StatusOf(n - 1, curr, running) == st then 1 else 0)
  }

  /** Over the list of a sequence, `curr` sets read completed, exactly one reads active while a
      running sequence is on a set, and none otherwise. */
  lemma {:induction false} LabelsFollowCursor(n: nat, curr: nat, running: bool)
    requires curr <= n
    ensures CountStatus(n, Some(curr), running, Completed) == curr
    ensures CountStatus(n, Some(curr), running, Active) == if running && curr < n then 1 else 0
  {
    if n > 0 {
      if curr == n {
        LabelsFollowCursor(n - 1, curr - 1, running);
        CountShift(n - 1, curr - 1, running);
      } else {
        LabelsFollowCursor(n - 1, curr, running);
      }
    }
  }

  /** Below the cursor every label is completed, so moving the cursor onto the last index does
      not change the counts of the sets before it. */
  lemma {:induction false} CountShift(n: nat, curr: nat, running: bool)
    requires n <= curr
    ensures CountStatus(n, Some(curr + 1), running, Completed) == CountStatus(n, Some(curr), running, Completed) == n
    ensures CountStatus(n, Some(curr + 1), running, Active) == CountStatus(n, Some(curr), running, Active) == 0
  {
    if n > 0 {
      CountShift(n - 1, curr, running);
    }
  }

  /** A completed label stays completed through every later frame. */
  lemma CompletedStaysCompleted(index: nat, t: Cursor, running: bool, running': bool)
    requires StatusOf(index, Some(t.curr), running) == Completed
    ensures StatusOf(index, Some(Step(t).curr), running') == Completed
  {
  }

  // ---------------------------------------------------------------- restarting, as written

  /** A JavaScript number as far as a lifetime needs one: reading a property that was never set
      yields undefined, and arithmetic on undefined yields NaN. */
  datatype JsNumber = Finite(v: int) | NaN

  function Decrement(x: JsNumber): JsNumber
  {
    if x.Finite? then Finite(x.v - 1) else NaN
  }

  /** `x <= 0` and `x === 0`; every comparison with NaN is false. */
  predicate AtMostZero(x: JsNumber) { x.Finite? && x.v <= 0 }
  predicate IsZero(x: JsNumber) { x.Finite? && x.v == 0 }

  /** `set.lifetime = set.originalLifetime` with a field the constructor may not set: absent
      reads as undefined, which the first `lifetime--` turns into NaN. */
  function RestartedAsWritten(originalLifetime: Option<int>): JsNumber
  {
    if originalLifetime.Some? then Finite(originalLifetime.value) else NaN
  }

  function Countdown(x: JsNumber, k: nat): JsNumber
    decreases k
  {
    if k == 0 then x else Countdown(Decrement(x), k - 1)
  }

  /** With `originalLifetime` never set, a restarted set never reaches 0: the sequence never
      moves past it and the set is never emptied, however many frames pass. */
  lemma {:induction false} RestartStallsAsWritten(k: nat)
    ensures !AtMostZero(Countdown(RestartedAsWritten(None), k + 1))
    ensures !IsZero(Countdown(RestartedAsWritten(None), k + 1))
  {
    NaNStaysNaN(k + 1);
  }

  lemma {:induction false} NaNStaysNaN(k: nat)
    ensures Countdown(NaN, k) == NaN
  {
    if k > 0 {
      NaNStaysNaN(k - 1);
    }
  }

  /** With the field set, the same countdown reaches 0 after exactly `originalLifetime` frames. */
  lemma {:induction false} RestartCountsDown(l: int, k: nat)
    ensures Countdown(RestartedAsWritten(Some(l)), k) == Finite(l - k)
  {
    if k > 0 {
      RestartCountsDownFrom(l - 1, k - 1);
    }
  }

  lemma {:induction false} RestartCountsDownFrom(l: int, k: nat)
    ensures Countdown(Finite(l), k) == Finite(l - k)
    decreases k
  {
    if k > 0 {
      RestartCountsDownFrom(l - 1, k - 1);
    }
  }

  // ---------------------------------------------------------------- removing, as written

  /** `particleSets.filter(set => set.id !== id)` over ids that may be undefined (None). */
  function KeepOtherIds(ids: seq<Option<int>>, id: Option<int>): (r: seq<Option<int>>)
    ensures forall x :: x in r <==> x in ids && x != id
  {
    if |ids| == 0 then []
    else (if ids[0] != id then [ids[0]] else []) + KeepOtherIds(ids[1..], id)
  }

  /** With no set carrying an id, every remove button passes undefined and clears the list. */
  lemma {:induction false} RemoveClearsAllAsWritten(ids: seq<Option<int>>)
    requires forall i :: 0 <= i < |ids| ==> ids[i] == None
    ensures KeepOtherIds(ids, None) == []
  {
    if |ids| > 0 {
      RemoveClearsAllAsWritten(ids[1..]);
    }
  }

  // ---------------------------------------------------------------- removing

  /** The sets whose id differs from `id`, in their order. */
  function Without(ss: seq<ParticleSet>, id: int): (r: seq<ParticleSet>)
    ensures forall i :: 0 <= i < |r| ==> r[i].id != id
    ensures |r| <= |ss|
  {
    if |ss| == 0 then []
    else (if ss[0].id != id then [ss[0]] else []) + Without(ss[1..], id)
  }

  /** Every set the filter keeps comes from the list. */
  lemma {:induction false} WithoutFrom(ss: seq<ParticleSet>, id: int)
    ensures forall i :: 0 <= i < |Without(ss, id)| ==> Without(ss, id)[i] in ss
  {
    if |ss| > 0 {
      WithoutFrom(ss[1..], id);
      var r := Without(ss[1..], id);
      forall i | 0 <= i < |r| ensures r[i] in ss {
        assert r[i] in ss[1..];
      }
    }
  }

  /** Every listed set with another id is kept. */
  lemma {:induction false} WithoutKeepsOthers(ss: seq<ParticleSet>, id: int)
    ensures forall i :: 0 <= i < |ss| && ss[i].id != id ==> ss[i] in Without(ss, id)
  {
    if |ss| > 0 {
      WithoutKeepsOthers(ss[1..], id);
      forall i | 1 <= i < |ss| && ss[i].id != id ensures ss[i] in Without(ss, id) {
        assert ss[1..][i - 1] == ss[i];
      }
    }
  }

  /** The filter works piece by piece, which is what keeping the order means. */
  lemma {:induction false} WithoutAppend(a: seq<ParticleSet>, b: seq<ParticleSet>, id: int)
    ensures Without(a + b, id) == Without(a, id) + Without(b, id)
  {
    if |a| == 0 {
      assert a + b == b;
    } else {
      assert (a + b)[0] == a[0] && (a + b)[1..] == a[1..] + b;
      WithoutAppend(a[1..], b, id);
    }
  }

  predicate UniqueIds(ss: seq<ParticleSet>)
  {
    forall i, j :: 0 <= i < j < |ss| ==> ss[i].id != ss[j].id
  }

  /** Removing keeps the ids unique. */
  lemma {:induction false} WithoutUnique(ss: seq<ParticleSet>, id: int)
    requires UniqueIds(ss)
    ensures UniqueIds(Without(ss, id))
  {
    if |ss| > 0 {
      WithoutUnique(ss[1..], id);
      WithoutFrom(ss[1..], id);
      var r := Without(ss[1..], id);
      forall j | 0 <= j < |r|
        ensures ss[0].id != r[j].id
      {
        assert r[j] in ss[1..];
      }
    }
  }

  /** With unique ids, removing the id of a listed set removes exactly that set. */
  lemma {:induction false} WithoutRemovesOne(ss: seq<ParticleSet>, k: nat)
    requires UniqueIds(ss) && k < |ss|
    ensures Without(ss, ss[k].id) == ss[..k] + ss[k + 1..]
    decreases k
  {
    var id := ss[k].id;
    var tail := ss[1..];
    assert UniqueIds(tail) by {
      forall i, j | 0 <= i < j < |tail| ensures tail[i].id != tail[j].id {
        assert tail[i] == ss[i + 1] && tail[j] == ss[j + 1];
      }
    }
    if k == 0 {
      forall i | 0 <= i < |tail| ensures tail[i].id != id {
        assert tail[i] == ss[i + 1];
      }
      WithoutAbsent(tail, id);
      assert Without(ss, id) == Without(tail, id);
    } else {
      assert ss[0].id != id;
      assert tail[k - 1] == ss[k];
      WithoutRemovesOne(tail, k - 1);
      assert Without(ss, id) == [ss[0]] + Without(tail, id);
      assert [ss[0]] + tail[..k - 1] == ss[..k];
      assert tail[k..] == ss[k + 1..];
    }
  }

  lemma WithoutSingle(s: ParticleSet, id: int)
    ensures Without([s], id) == if s.id == id then [] else [s]
  {
    assert [s][1..] == [];
  }

  /** Removing an id no set carries changes nothing. */
  lemma {:induction false} WithoutAbsent(ss: seq<ParticleSet>, id: int)
    requires forall i :: 0 <= i < |ss| ==> ss[i].id != id
    ensures Without(ss, id) == ss
  {
    if |ss| > 0 {
      WithoutAbsent(ss[1..], id);
    }
  }

  // ---------------------------------------------------------------- presets

  /** One entry of a preset file's `particleSets` array; an absent field is None. */
  datatype SetData = SetData(
    numParticles: Option<int>,
    lifetime: Option<int>,
    size: Option<real>,
    color: Option<Vec3>,
    alpha: real,
    options: Option<RawOptions>)

  /** A preset file: `particleSets` is None when it is missing or not an array. */
  datatype Preset = Preset(particleSets: Option<seq<SetData>>)

  /** The loader's check of an entry: the number fields must be present and non-zero, the
      colour and the options present. */
  predicate Complete(d: SetData)
  {
    d.numParticles.Some? && d.numParticles.value != 0 &&
    d.lifetime.Some? && d.lifetime.value != 0 &&
    d.size.Some? && d.size.value != 0.0 &&
    d.color.Some? && d.options.Some?
  }

  /** The loader rebuilds `shapeFill`, white when the entry has none. */
  function WithFill(raw: RawOptions): (o: RawOptions)
    ensures o.shapeFill.Some?
  {
    raw.(shapeFill := Some(if raw.shapeFill.Some? then raw.shapeFill.value else White))
  }

  /** The loader's white default and the set's own agree: rebuilding the fill changes nothing. */
  lemma WithFillResolves(raw: RawOptions)
    ensures Resolve(WithFill(raw)) == Resolve(raw)
  {
  }

  /** Sets with different ids are different objects. */
  lemma UniqueSetsDistinct(ss: seq<ParticleSet>)
    requires UniqueIds(ss)
    ensures forall i, j :: 0 <= i < j < |ss| ==> ss[i] != ss[j]
  {
  }

  /** The set built from an entry. */
  ghost predicate Built(s: ParticleSet, d: SetData)
    requires Complete(d)
    reads s
  {
    s.numParticles == d.numParticles.value && s.lifetime == d.lifetime.value &&
    s.originalLifetime == d.lifetime.value && s.size == d.size.value &&
    s.color == d.color.value && s.alpha == d.alpha && s.opts == Resolve(WithFill(d.options.value)) &&
    |s.particles| == Max(d.numParticles.value, 0)
  }

  /** The set an entry describes, its `shapeFill` rebuilt first. */
  method SetFromEntry(d: SetData, id: int, c: Canvas) returns (s: ParticleSet)
    requires Complete(d)
    ensures fresh(s) && Built(s, d) && s.Valid() && s.id == id
  {
    var options := WithFill(d.options.value);
    s := new ParticleSet(d.numParticles.value, d.lifetime.value, d.size.value, d.color.value, d.alpha, options, id, c);
  }

  // ---------------------------------------------------------------- the page

  class PageState {
    var particleSets: seq<ParticleSet>
    var particleSequence: ParticleSequence?
    var isRunning: bool
    /** The id the next set receives. */
    var nextId: int

    /** Valid sets with unique ids below `nextId`, and a valid sequence when there is one. */
    ghost predicate Valid()
      reads this, particleSets, particleSequence
      reads if particleSequence != null then particleSequence.sets else []
    {
      UniqueIds(particleSets) &&
      (forall i :: 0 <= i < |particleSets| ==> particleSets[i].Valid() && particleSets[i].id < nextId) &&
      (particleSequence != null ==> particleSequence.Valid())
    }

    /** The page as it opens: no sets, no sequence, not running. */
    constructor ()
      ensures Valid() && particleSets == [] && particleSequence == null && !isRunning
    {
      particleSets := [];
      particleSequence := null;
      isRunning := false;
      nextId := 0;
    }

    /** Replace the list by the preset's sets, in order, with a sequence over them when there
        are any. A preset without a `particleSets` array changes nothing; an incomplete entry
        leaves the page with no sets and no sequence, whatever it held before. */
    method LoadPresetData(preset: Preset, c: Canvas)
      requires Valid()
      modifies this
      ensures Valid() && isRunning == old(isRunning)
      ensures preset.particleSets.None? ==>
        particleSets == old(particleSets) && particleSequence == old(particleSequence)
      ensures preset.particleSets.Some? && !(forall d | d in preset.particleSets.value :: Complete(d)) ==>
        particleSets == [] && particleSequence == null
      ensures preset.particleSets.Some? && (forall d | d in preset.particleSets.value :: Complete(d)) ==>
        var entries := preset.particleSets.value;
        |particleSets| == |entries| &&
        (forall i :: 0 <= i < |entries| ==> fresh(particleSets[i]) && Built(particleSets[i], entries[i])) &&
        (particleSequence != null <==> |entries| > 0) &&
        (particleSequence != null ==> fresh(particleSequence) && particleSequence.sets == particleSets && particleSequence.curr == 0)
    {
      if preset.particleSets.None? {
        return;
      }
      var entries := preset.particleSets.value;
      particleSets := [];
      particleSequence := null;
      ghost var firstId := nextId;
      var i := 0;
      while i < |entries|
        invariant 0 <= i <= |entries| && |particleSets| == i
        invariant particleSequence == null && isRunning == old(isRunning)
        invariant forall k :: 0 <= k < i ==> Complete(entries[k])
        invariant forall k :: 0 <= k < i ==>
          fresh(particleSets[k]) && Built(particleSets[k], entries[k]) && particleSets[k].Valid() && particleSets[k].id == firstId + k
        invariant nextId == firstId + i
      {
        var d := entries[i];
        if !Complete(d) {
          break;
        }
        var s := SetFromEntry(d, nextId, c);
        nextId := nextId + 1;
        particleSets := particleSets + [s];
        i := i + 1;
      }
      if i < |entries| {
        particleSets := [];
        particleSequence := null;
      } else if |particleSets| > 0 {
        particleSequence := new ParticleSequence(particleSets);
      }
    }

    /** With sets to play: set running, restore every set's lifetime, respawn its particles and
        start a fresh sequence over the same sets. With none, nothing happens. */
    method StartAnimation(c: Canvas)
      requires Valid()
      modifies this, particleSets
      ensures Valid() && particleSets == old(particleSets) && nextId == old(nextId)
      ensures |particleSets| == 0 ==> particleSequence == old(particleSequence) && isRunning == old(isRunning)
      ensures |particleSets| > 0 ==>
        isRunning && particleSequence != null && fresh(particleSequence) &&
        particleSequence.sets == particleSets && particleSequence.curr == 0
      ensures forall k :: 0 <= k < |particleSets| ==> Restarted(particleSets[k], |old(particleSets[k].particles)|)
    {
      if |particleSets| == 0 {
        return;
      }
      isRunning := true;
      UniqueSetsDistinct(particleSets);
      var i := 0;
      while i < |particleSets|
        invariant 0 <= i <= |particleSets|
        invariant particleSets == old(particleSets) && nextId == old(nextId) && isRunning
        invariant forall k, j :: 0 <= k < j < |particleSets| ==> particleSets[k] != particleSets[j]
        invariant forall k :: 0 <= k < |particleSets| ==>
          particleSets[k].Valid() &&
          (k < i ==> Restarted(particleSets[k], |old(particleSets[k].particles)|)) &&
          (i <= k ==> particleSets[k].particles == old(particleSets[k].particles))
      {
        ResetSet(particleSets[i], c);
        i := i + 1;
      }
      particleSequence := new ParticleSequence(particleSets);
    }

    /** Drop the sets with this id, keeping the order of the rest. */
    method RemoveParticleSet(id: int)
      requires Valid()
      modifies this
      ensures Valid() && particleSets == Without(old(particleSets), id)
      ensures particleSequence == old(particleSequence) && isRunning == old(isRunning) && nextId == old(nextId)
    {
      WithoutUnique(particleSets, id);
      WithoutFrom(particleSets, id);
      particleSets := Without(particleSets, id);
    }

    /** The objects one frame may change. */
    ghost function Busy(): set<object>
      reads this, particleSequence
      reads if particleSequence != null then particleSequence.sets else []
    {
      if particleSequence != null then {particleSequence as object} + particleSequence.Live() else {}
    }

    /** One frame: while running, execute the sequence, and stop once its cursor has passed the
        end of the list. */
    method Draw(f: Field, c: Canvas) returns (frame: seq<Option<Mark>>)
      requires Valid()
      modifies this, Busy()
      ensures Valid()
      ensures particleSets == old(particleSets) && particleSequence == old(particleSequence) && nextId == old(nextId)
      ensures !(old(isRunning) && particleSequence != null) ==> isRunning == old(isRunning) && frame == []
      ensures !(old(isRunning) && old(particleSequence) != null) ==> unchanged(this) && unchanged(old(Busy()))
      ensures old(isRunning) && particleSequence != null ==> (isRunning <==> particleSequence.curr < |particleSets|)
    {
      frame := [];
      if isRunning && particleSequence != null {
        var q := particleSequence;
        ghost var cur := if q.curr < |q.sets| then Some(q.sets[q.curr]) else None;
        frame := q.Execute(f, c);
        forall k | 0 <= k < |particleSets|
          ensures particleSets[k].Valid()
        {
          if cur != Some(particleSets[k]) {
            assert unchanged(particleSets[k]);
          }
        }
        if q.curr >= |particleSets| {
          isRunning := false;
        }
      }
    }
  }

  /** The restart of one set: its lifetime back to the original, then new particles in its
      first `numParticles` slots, spawned as its constructor spawns them. */
  method ResetSet(s: ParticleSet, c: Canvas)
    requires s.Valid()
    modifies s
    ensures s.Valid() && Restarted(s, |old(s.particles)|)
    ensures forall i :: 0 <= i < s.numParticles ==>
      fresh(s.particles[i]) && Spawned(s.particles[i], c, s.opts, s.size, s.color, s.alpha, s.lifetime)
    ensures forall i :: Max(s.numParticles, 0) <= i < |s.particles| ==> s.particles[i] == old(s.particles[i])
  {
    s.lifetime := s.originalLifetime;
    s.GenerateParticles(c);
  }

  /** A set after the restart: its lifetime restored and its first `numParticles` slots
      refilled, the slots beyond them kept; `before` is how many slots it had. */
  ghost predicate Restarted(s: ParticleSet, before: int)
    reads s
  {
    s.lifetime == s.originalLifetime && |s.particles| == Max(s.numParticles, before)
  }
}
