/** The option block of a particle set and the way ParticleSet.js fills it in: every option
    is `options.name || default`, so an absent option and a falsy one (0, "", false) both
    take the default. */
module Config {
  import opened Wrappers
  import opened Vectors

  /** The `options` object as a caller supplies it: any option may be absent. */
  datatype RawOptions = RawOptions(
    scl: Option<real>,
    magnitude: Option<real>,
    angleMult: Option<real>,
    globalSpeedLimit: Option<real>,
    noiseScale: Option<real>,
    edgeWrap: Option<bool>,
    spawnSpillover: Option<real>,
    globalMoveMethod: Option<string>,
    drawShape: Option<string>,
    shapeSize: Option<string>,
    shapeFill: Option<Vec3>,
    shrink: Option<bool>,
    shrinkRate: Option<real>,
    fade: Option<bool>,
    fadeRate: Option<real>)

  /** The options a particle set keeps after defaulting. */
  datatype Options = Options(
    scl: real,
    magnitude: real,
    angleMult: real,
    globalSpeedLimit: real,
    noiseScale: real,
    edgeWrap: bool,
    spawnSpillover: real,
    globalMoveMethod: string,
    drawShape: string,
    shapeSize: string,
    shapeFill: Vec3,
    shrink: bool,
    shrinkRate: real,
    fade: bool,
    fadeRate: real)

  const NoOptions: RawOptions :=
    RawOptions(None, None, None, None, None, None, None, None, None, None, None, None, None, None, None)

  const White: Vec3 := Vec3(255.0, 255.0, 255.0)

  /** JavaScript truthiness of the supplied values. */
  predicate TruthyReal(o: Option<real>) { o.Some? && o.value != 0.0 }
  predicate TruthyString(o: Option<string>) { o.Some? && o.value != "" }
  predicate TruthyBool(o: Option<bool>) { o.Some? && o.value }

  /** `o || d` for a number. */
  function OrReal(o: Option<real>, d: real): (r: real)
    ensures TruthyReal(o) ==> r == o.value
    ensures !TruthyReal(o) ==> r == d
  {
    if TruthyReal(o) then o.value else d
  }

  /** `o || d` for a string. */
  function OrString(o: Option<string>, d: string): (r: string)
    ensures TruthyString(o) ==> r == o.value
    ensures !TruthyString(o) ==> r == d
  {
    if TruthyString(o) then o.value else d
  }

  /** `o || false`: true exactly when a true value was supplied. */
  function OrFalse(o: Option<bool>): (r: bool)
    ensures r <==> TruthyBool(o)
  {
    o.Some? && o.value
  }

  /** `o || createVector(255, 255, 255)`: a supplied vector is an object and always truthy. */
  function OrWhite(o: Option<Vec3>): (r: Vec3)
    ensures o.Some? ==> r == o.value
    ensures o.None? ==> r == White
  {
    if o.Some? then o.value else White
  }

  /** The numeric options whose defaults are non-zero are never zero after defaulting, and the
      string options never empty; in particular `scl`, which the physics follow divides by. */
  predicate Settled(o: Options)
  {
    o.scl != 0.0 && o.magnitude != 0.0 && o.angleMult != 0.0 && o.globalSpeedLimit != 0.0 &&
    o.noiseScale != 0.0 && o.shrinkRate != 0.0 && o.fadeRate != 0.0 &&
    o.globalMoveMethod != "" && o.drawShape != "" && o.shapeSize != ""
  }

  /** The option block of the ParticleSet constructor, with its defaults. */
  function Resolve(raw: RawOptions): (o: Options)
    ensures Settled(o)
    ensures TruthyReal(raw.scl) ==> o.scl == raw.scl.value
    ensures !TruthyReal(raw.scl) ==> o.scl == 5.0
    ensures TruthyReal(raw.magnitude) ==> o.magnitude == raw.magnitude.value
    ensures !TruthyReal(raw.magnitude) ==> o.magnitude == 4.0
    ensures TruthyReal(raw.angleMult) ==> o.angleMult == raw.angleMult.value
    ensures !TruthyReal(raw.angleMult) ==> o.angleMult == 1.0
    ensures TruthyReal(raw.globalSpeedLimit) ==> o.globalSpeedLimit == raw.globalSpeedLimit.value
    ensures !TruthyReal(raw.globalSpeedLimit) ==> o.globalSpeedLimit == 1.0
    ensures TruthyReal(raw.noiseScale) ==> o.noiseScale == raw.noiseScale.value
    ensures !TruthyReal(raw.noiseScale) ==> o.noiseScale == 0.01
    ensures TruthyReal(raw.spawnSpillover) ==> o.spawnSpillover == raw.spawnSpillover.value
    ensures !TruthyReal(raw.spawnSpillover) ==> o.spawnSpillover == 0.0
    ensures TruthyString(raw.globalMoveMethod) ==> o.globalMoveMethod == raw.globalMoveMethod.value
    ensures !TruthyString(raw.globalMoveMethod) ==> o.globalMoveMethod == "direct"
    ensures TruthyString(raw.drawShape) ==> o.drawShape == raw.drawShape.value
    ensures !TruthyString(raw.drawShape) ==> o.drawShape == "line"
    ensures TruthyString(raw.shapeSize) ==> o.shapeSize == raw.shapeSize.value
    ensures !TruthyString(raw.shapeSize) ==> o.shapeSize == "relative"
    ensures raw.shapeFill.Some? ==> o.shapeFill == raw.shapeFill.value
    ensures raw.shapeFill.None? ==> o.shapeFill == White
    ensures TruthyReal(raw.shrinkRate) ==> o.shrinkRate == raw.shrinkRate.value
    ensures !TruthyReal(raw.shrinkRate) ==> o.shrinkRate == 0.3
    ensures TruthyReal(raw.fadeRate) ==> o.fadeRate == raw.fadeRate.value
    ensures !TruthyReal(raw.fadeRate) ==> o.fadeRate == 1.0
    ensures o.edgeWrap <==> TruthyBool(raw.edgeWrap)
    ensures o.shrink <==> TruthyBool(raw.shrink)
    ensures o.fade <==> TruthyBool(raw.fade)
  {
    Options(
      scl := OrReal(raw.scl, 5.0),
      magnitude := OrReal(raw.magnitude, 4.0),
      angleMult := OrReal(raw.angleMult, 1.0),
      globalSpeedLimit := OrReal(raw.globalSpeedLimit, 1.0),
      noiseScale := OrReal(raw.noiseScale, 0.01),
      edgeWrap := OrFalse(raw.edgeWrap),
      spawnSpillover := OrReal(raw.spawnSpillover, 0.0),
      globalMoveMethod := OrString(raw.globalMoveMethod, "direct"),
      drawShape := OrString(raw.drawShape, "line"),
      shapeSize := OrString(raw.shapeSize, "relative"),
      shapeFill := OrWhite(raw.shapeFill),
      shrink := OrFalse(raw.shrink),
      shrinkRate := OrReal(raw.shrinkRate, 0.3),
      fade := OrFalse(raw.fade),
      fadeRate := OrReal(raw.fadeRate, 1.0))
  }

  /** Every option supplied: how a resolved block is written back out (the preset file's
      `options` object) and handed to a new set again. */
  function Supplied(o: Options): (raw: RawOptions)
    ensures raw.scl == Some(o.scl) && raw.globalMoveMethod == Some(o.globalMoveMethod)
  {
    RawOptions(Some(o.scl), Some(o.magnitude), Some(o.angleMult), Some(o.globalSpeedLimit),
      Some(o.noiseScale), Some(o.edgeWrap), Some(o.spawnSpillover), Some(o.globalMoveMethod),
      Some(o.drawShape), Some(o.shapeSize), Some(o.shapeFill), Some(o.shrink), Some(o.shrinkRate),
      Some(o.fade), Some(o.fadeRate))
  }

  /** Supplying a settled block again reproduces it exactly. */
  lemma ResolveSupplied(o: Options)
    requires Settled(o)
    ensures Resolve(Supplied(o)) == o
  {
  }

  /** Defaulting is idempotent: applying it to its own output changes nothing. */
  lemma ResolveIdempotent(raw: RawOptions)
    ensures Resolve(Supplied(Resolve(raw))) == Resolve(raw)
  {
    ResolveSupplied(Resolve(raw));
  }

  /** Each value as `||` sees it: a falsy one (0, "", false) is as good as absent. */
  function DropFalsy(raw: RawOptions): RawOptions
  {
    RawOptions(
      if TruthyReal(raw.scl) then raw.scl else None,
      if TruthyReal(raw.magnitude) then raw.magnitude else None,
      if TruthyReal(raw.angleMult) then raw.angleMult else None,
      if TruthyReal(raw.globalSpeedLimit) then raw.globalSpeedLimit else None,
      if TruthyReal(raw.noiseScale) then raw.noiseScale else None,
      if TruthyBool(raw.edgeWrap) then raw.edgeWrap else None,
      if TruthyReal(raw.spawnSpillover) then raw.spawnSpillover else None,
      if TruthyString(raw.globalMoveMethod) then raw.globalMoveMethod else None,
      if TruthyString(raw.drawShape) then raw.drawShape else None,
      if TruthyString(raw.shapeSize) then raw.shapeSize else None,
      raw.shapeFill,
      if TruthyBool(raw.shrink) then raw.shrink else None,
      if TruthyReal(raw.shrinkRate) then raw.shrinkRate else None,
      if TruthyBool(raw.fade) then raw.fade else None,
      if TruthyReal(raw.fadeRate) then raw.fadeRate else None)
  }

  /** A falsy option takes the default exactly as an absent one does. */
  lemma FalsyIsAbsent(raw: RawOptions)
    ensures Resolve(DropFalsy(raw)) == Resolve(raw)
  {
  }

  /** The defaults themselves. */
  lemma ResolveDefaults()
    ensures Resolve(NoOptions) == Options(5.0, 4.0, 1.0, 1.0, 0.01, false, 0.0, "direct", "line",
      "relative", White, false, 0.3, false, 1.0)
  {
  }
}
