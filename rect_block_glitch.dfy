/**
 * RectBlockGlitch.cs: shifts rectangular blocks of the picture, chosen by
 * a low-resolution noise texture, by `intensity`. Render repaints that
 * texture now and then; each trigger decays `intensity` from
 * `maxIntensity` to 0.
 */
module RectBlockGlitchEffect {
  import opened Wrappers
  import opened UnityMath
  import opened Transition
  import opened Controller
  import opened NoiseGrid

  /**
   * The scan of UpdateNoiseTexture: `color = RandomColor()`, then the rows
   * y = 0 .. height - 1 in turn. Every cell ends up with the colour the
   * scan gives it; the result is the next unused draw.
   */
  method PaintNoise(tex: array2<Color>, draws: Draws, change: real, cursor: nat) returns (next: nat)
    modifies tex
    ensures Painted(tex, Seed(draws, cursor), draws, change)
    ensures next == PenAfter(Seed(draws, cursor), draws, change, tex.Length1 * tex.Length0).cursor
  {
    var width := tex.Length0;
    var k := cursor;
    var color := RandomColor(draws, k);
    k := k + 4;
    ghost var seed := Pen(color, k);
    ghost var done: nat := 0;
    var y := 0;
    while y < tex.Length1
      invariant 0 <= y <= tex.Length1 && done == y * width
      invariant Pen(color, k) == PenAfter(seed, draws, change, done)
      invariant forall xx: nat, yy: nat :: xx < width && yy < y ==>
        tex[xx, yy] == Cell(seed, draws, change, width, xx, yy)
    {
      label Before:
      color, k := PaintRow(tex, y, seed, draws, change, done, color, k);
      forall xx: nat, yy: nat | xx < width && yy <= y
        ensures tex[xx, yy] == Cell(seed, draws, change, width, xx, yy)
      {
        if yy < y {
          assert tex[xx, yy] == old@Before(tex[xx, yy]);
        }
      }
      assert done + width == (y + 1) * width;
      done := done + width;
      y := y + 1;
    }
    next := k;
  }

  /**
   * One row of the scan: for x = 0 .. width - 1, PaintCell. `row` counts
   * the cells painted before this row; the colour and the draw position
   * carry on into the next row.
   */
  method PaintRow(tex: array2<Color>, y: nat, ghost seed: Pen, draws: Draws, change: real, ghost row: nat, color: Color, k: nat)
    returns (color': Color, k': nat)
    requires y < tex.Length1
    requires Pen(color, k) == PenAfter(seed, draws, change, row)
    modifies tex
    ensures Pen(color', k') == PenAfter(seed, draws, change, row + tex.Length0)
    ensures forall xx: nat :: xx < tex.Length0 ==> tex[xx, y] == PenAfter(seed, draws, change, row + xx + 1).color
    ensures forall xx: nat, yy: nat :: xx < tex.Length0 && yy < tex.Length1 && yy != y ==> tex[xx, yy] == old(tex[xx, yy])
  {
    color', k' := color, k;
    ghost var n := row;
    var x := 0;
    while x < tex.Length0
      invariant 0 <= x <= tex.Length0 && n == row + x
      invariant Pen(color', k') == PenAfter(seed, draws, change, n)
      invariant forall xx: nat :: xx < x ==> tex[xx, y] == PenAfter(seed, draws, change, row + xx + 1).color
      invariant forall xx: nat, yy: nat :: xx < tex.Length0 && yy < tex.Length1 && yy != y ==> tex[xx, yy] == old(tex[xx, yy])
    {
      label Before:
      color', k' := PaintCell(tex, x, y, seed, draws, change, n, color', k');
      forall xx: nat | xx <= x
        ensures tex[xx, y] == PenAfter(seed, draws, change, row + xx + 1).color
      {
        if xx < x {
          assert tex[xx, y] == old@Before(tex[xx, y]);
        }
      }
      n := n + 1;
      x := x + 1;
    }
  }

  /**
   * One cell of the scan: take a draw; when it exceeds `change`, replace the
   * colour by RandomColor(); then SetPixel(x, y, color).
   */
  method PaintCell(tex: array2<Color>, x: nat, y: nat, ghost seed: Pen, draws: Draws, change: real, ghost n: nat, color: Color, k: nat)
    returns (color': Color, k': nat)
    requires x < tex.Length0 && y < tex.Length1
    requires Pen(color, k) == PenAfter(seed, draws, change, n)
    modifies tex
    ensures Pen(color', k') == PenAfter(seed, draws, change, n + 1)
    ensures tex[x, y] == color'
    ensures forall xx: nat, yy: nat :: xx < tex.Length0 && yy < tex.Length1 && (xx != x || yy != y) ==> tex[xx, yy] == old(tex[xx, yy])
  {
    color', k' := color, k;
    var pick := draws(k');
    k' := k' + 1;
    if pick > change {
      color' := RandomColor(draws, k');
      k' := k' + 4;
    }
    tex[x, y] := color';
  }

  class RectBlockGlitch {
    /** ClampedFloatParameter(0.9, 0, 1): Render repaints when its draw exceeds this. */
    var noiseSpeed: real
    /** ClampedFloatParameter(0.85, 0, 1): a cell takes a fresh colour when its draw exceeds this. */
    var noiseColorChange: real
    /** ClampedFloatParameter(0, 0, 1). */
    var intensity: real
    /** ClampedIntParameter(55, 0, 150): screen pixels per noise cell. */
    var glitchScale: int
    /** ClampedFloatParameter(0.95, 0, 1). */
    var maxIntensity: real
    /** The noise texture, indexed [x, y]: Length0 is its width, Length1 its height. */
    var noiseTexture: array2<Color>
    /** The scale the texture was last sized for (a float in C#). */
    var cachedGlitchScale: real
    /** The length of a run, in seconds. */
    var transitionT: real
    var hasMaterial: bool

    ghost predicate Valid()
      reads this
    {
      && 0.0 <= noiseSpeed <= 1.0
      && 0.0 <= noiseColorChange <= 1.0
      && 0.0 <= intensity <= 1.0
      && 0 <= glitchScale <= 150
      && 0.0 <= maxIntensity <= 1.0
    }

    /** The component as declared, with a fresh texture of the given size that is not yet painted. */
    constructor (hasMaterial: bool, transitionT: real, width: nat, height: nat)
      ensures Valid()
      ensures noiseSpeed == 0.9 && noiseColorChange == 0.85 && intensity == 0.0
      ensures glitchScale == 55 && maxIntensity == 0.95 && cachedGlitchScale == 0.0
      ensures fresh(noiseTexture) && noiseTexture.Length0 == width && noiseTexture.Length1 == height
      ensures this.transitionT == transitionT && this.hasMaterial == hasMaterial
      ensures !IsActive()
    {
      noiseSpeed := 0.9;
      noiseColorChange := 0.85;
      intensity := 0.0;
      glitchScale := 55;
      maxIntensity := 0.95;
      noiseTexture := new Color[width, height];
      cachedGlitchScale := 0.0;
      this.transitionT := transitionT;
      this.hasMaterial := hasMaterial;
    }

    function IsActive(): (active: bool)
      reads this
      ensures active ==> hasMaterial
      ensures hasMaterial ==> (active <==> intensity > 0.0)
    {
      hasMaterial && intensity > 0.0
    }

    /** Zeroes `intensity` and nothing else: the effect becomes inactive. */
    method Reset()
      requires Valid()
      modifies this`intensity
      ensures intensity == 0.0 && Valid() && !IsActive()
    {
      intensity := 0.0;
    }

    /**
     * What UpdateNoiseTexture leaves, given the cache and the texture it
     * found and the draw it started at. With the cache out of date and a
     * zero scale, `Screen.width / glitchScale` throws (None) before anything
     * changes. Otherwise a stale cache gives a texture of
     * (Screen.width / glitchScale) x (Screen.height / glitchScale) cells and
     * the cache takes the scale; a current cache keeps the texture. Either
     * way every cell holds the colour the scan gives it, and the result is
     * the next unused draw.
     */
    ghost predicate Repainted(screenWidth: nat, screenHeight: nat, draws: Draws, cursor: nat,
                              next: Option<nat>, cached: real, texture: array2<Color>)
      reads this, noiseTexture
    {
      && (next.None? <==> cached != glitchScale as real && glitchScale == 0)
      && (next.None? ==> noiseTexture == texture && cachedGlitchScale == cached)
      && (cached == glitchScale as real ==> noiseTexture == texture && cachedGlitchScale == cached)
      && (cached != glitchScale as real && glitchScale != 0 ==>
            && cachedGlitchScale == glitchScale as real
            && noiseTexture.Length0 == Quot(screenWidth, glitchScale)
            && noiseTexture.Length1 == Quot(screenHeight, glitchScale))
      && (next.Some? ==>
            var seed := Seed(draws, cursor);
            && Painted(noiseTexture, seed, draws, noiseColorChange)
            && next.value == PenAfter(seed, draws, noiseColorChange, noiseTexture.Length1 * noiseTexture.Length0).cursor)
    }

    /**
     * UpdateNoiseTexture: resizes the texture when the cached scale differs
     * from `glitchScale` (the contents ResizeTexture carries over are all
     * repainted), then paints every cell in row-major order starting from a
     * fresh seed colour.
     */
    method UpdateNoiseTexture(screenWidth: nat, screenHeight: nat, draws: Draws, cursor: nat) returns (next: Option<nat>)
      requires Valid()
      modifies this`noiseTexture, this`cachedGlitchScale, noiseTexture
      ensures Valid()
      ensures Repainted(screenWidth, screenHeight, draws, cursor, next, old(cachedGlitchScale), old(noiseTexture))
      ensures next.None? ==> unchanged(noiseTexture)
      ensures noiseTexture != old(noiseTexture) ==> fresh(noiseTexture)
    {
      if cachedGlitchScale != glitchScale as real {
        if glitchScale == 0 {
          return None;
        }
        var w := Quot(screenWidth, glitchScale);
        var h := Quot(screenHeight, glitchScale);
        noiseTexture := new Color[w, h];
        cachedGlitchScale := glitchScale as real;
      }
      var k := PaintNoise(noiseTexture, draws, noiseColorChange, cursor);
      next := Some(k);
    }

    /**
     * The noise gate of Render: without a material nothing happens;
     * otherwise one draw is taken, and only a draw above `noiseSpeed`
     * repaints the texture (starting at the following draw). The result is
     * the next unused draw, or None when repainting threw.
     */
    method RenderNoise(screenWidth: nat, screenHeight: nat, draws: Draws, cursor: nat) returns (next: Option<nat>)
      requires Valid()
      modifies this`noiseTexture, this`cachedGlitchScale, noiseTexture
      ensures Valid()
      ensures !hasMaterial ==> next == Some(cursor) && unchanged(this) && unchanged(noiseTexture)
      ensures hasMaterial && draws(cursor) <= noiseSpeed ==>
        next == Some(cursor + 1) && unchanged(this) && unchanged(noiseTexture)
      ensures hasMaterial && draws(cursor) > noiseSpeed ==>
        Repainted(screenWidth, screenHeight, draws, cursor + 1, next, old(cachedGlitchScale), old(noiseTexture))
      ensures noiseTexture != old(noiseTexture) ==> fresh(noiseTexture)
    {
      if !hasMaterial {
        return Some(cursor);
      }
      if draws(cursor) > noiseSpeed {
        next := UpdateNoiseTexture(screenWidth, screenHeight, draws, cursor + 1);
      } else {
        next := Some(cursor + 1);
      }
    }

    /** Execute: starts the glitch run whatever the trigger type. */
    method Execute(kind: PostProcessType, dts: seq<real>, ease: Easer) returns (duration: real)
      requires Valid() && NonNegative(dts)
      modifies this`intensity
      ensures Valid() && StoppedAt(transitionT, dts, duration)
      ensures Countdown(transitionT, dts) == [] ==> intensity == old(intensity)
      ensures Countdown(transitionT, dts) != [] ==>
        intensity == Clamp(ease(QuadOut, maxIntensity, 0.0, LastProgress(transitionT, dts)), 0.0, 1.0)
    {
      duration := ApplyGlitch(dts, ease);
    }

    /**
     * The coroutine (ApllyGlitch in the source), which runs its first
     * iteration at once: it counts `duration` down from `transitionT`,
     * writing `intensity` eased from `maxIntensity` towards 0 on every
     * iteration, with no phase. The last write uses the progress where the
     * countdown stopped (exactly 1 once the frames add up to `transitionT`),
     * clamped into [0, 1].
     */
    method ApplyGlitch(dts: seq<real>, ease: Easer) returns (duration: real)
      requires Valid() && NonNegative(dts)
      modifies this`intensity
      ensures Valid() && StoppedAt(transitionT, dts, duration)
      ensures Countdown(transitionT, dts) == [] ==> intensity == old(intensity)
      ensures Countdown(transitionT, dts) != [] ==>
        intensity == Clamp(ease(QuadOut, maxIntensity, 0.0, LastProgress(transitionT, dts)), 0.0, 1.0)
    {
      duration := transitionT;
      ghost var written: seq<real> := [];
      CountingStarts(transitionT, dts);
      var i := 0;
      while duration > 0.0 && i < |dts|
        invariant Counting(transitionT, dts, i, written, duration)
        invariant written == [] ==> intensity == old(intensity)
        invariant written != [] ==>
          intensity == Clamp(ease(QuadOut, maxIntensity, 0.0, Elapsed(duration, transitionT)), 0.0, 1.0)
        invariant Valid()
        decreases |dts| - i
      {
        CountingStep(transitionT, dts, i, written, duration);
        duration := Max(duration - dts[i], 0.0);
        intensity := Clamp(ease(QuadOut, maxIntensity, 0.0, Elapsed(duration, transitionT)), 0.0, 1.0);
        written := written + [duration];
        i := i + 1;
      }
      CountingStops(transitionT, dts, i, written, duration);
    }
  }
}
