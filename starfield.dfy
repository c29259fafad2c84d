/**
 * The animated star field behind the hero header (Myths/Assets/dyn/starfield.js).
 *
 * JavaScript doubles are idealised as Dafny `real`s. Every `Math.random()` draw
 * is an input in [0, 1). The repulsion that a hovering pointer applies and the
 * velocity that a click seeds both need `Math.sqrt` and, at distance 0, produce
 * NaN; they are inputs here, and only the squared-distance tests that decide
 * WHETHER they apply are modelled.
 */
module Starfield {
  import opened Common

  const StarCount: nat := 550
  const MouseRadius: real := 200.0
  const ClickRadius: real := 400.0
  const Damping: real := 0.92
  const PullBack: real := 0.04
  const OpacityHigh: real := 0.9
  const OpacityLow: real := 0.2
  /** The double nearest to pi, as `Math.PI` holds it. */
  const Pi: real := 3.141592653589793
  const Palette: seq<string> := [
    "rgba(165, 180, 252, ",
    "rgba(191, 219, 254, ",
    "rgba(233, 213, 255, "
  ]

  datatype Vec = Vec(x: real, y: real)

  /**
   * The `Math.random()` results `Star.init` consumes, in call order.
   * `shapeKind` is only consumed when `shapeCoin > 0.8`.
   */
  datatype Draws = Draws(
    x: real, y: real, size: real, density: real, opacity: real, blink: real,
    color: real, shapeCoin: real, shapeKind: real, rotation: real, rotationSpeed: real)

  predicate UnitDraw(r: real) { 0.0 <= r < 1.0 }

  predicate ValidDraws(d: Draws) {
    UnitDraw(d.x) && UnitDraw(d.y) && UnitDraw(d.size) && UnitDraw(d.density) &&
    UnitDraw(d.opacity) && UnitDraw(d.blink) && UnitDraw(d.color) && UnitDraw(d.shapeCoin) &&
    UnitDraw(d.shapeKind) && UnitDraw(d.rotation) && UnitDraw(d.rotationSpeed)
  }

  /** The value of every field of one `Star` object. */
  datatype StarState = StarState(
    x: real, y: real, baseX: real, baseY: real, vx: real, vy: real,
    size: real, density: real, opacity: real, blinkSpeed: real, blinkDir: int,
    colorBase: string, shapeType: int, rotation: real, rotationSpeed: real)

  /** `a` lies strictly inside the circle of the given radius around `b` (`Math.sqrt(dx*dx + dy*dy) < radius`, radius > 0). */
  predicate Within(a: Vec, b: Vec, radius: real) {
    var dx := a.x - b.x;
    var dy := a.y - b.y;
    dx * dx + dy * dy < radius * radius
  }

  // ---------------------------------------------------------------------------
  // Star.init

  lemma ProductSigns(a: real, b: real)
    ensures a >= 0.0 && b >= 0.0 ==> a * b >= 0.0
    ensures a > 0.0 && b > 0.0 ==> a * b > 0.0
  {
  }

  /** `r * n` for a draw `r` in [0, 1): a value in [0, n), or 0 when n is 0. */
  function Scale(r: real, n: real): (v: real)
    requires UnitDraw(r) && n >= 0.0
    ensures 0.0 <= v <= n && (n > 0.0 ==> v < n)
  {
    ProductSigns(r, n);
    ProductSigns(1.0 - r, n);
    assert n - r * n == (1.0 - r) * n;
    r * n
  }

  /** `Math.pow(r, 3)` for a draw `r` in [0, 1). */
  function Cube(r: real): (v: real)
    requires UnitDraw(r)
    ensures 0.0 <= v < 1.0
  {
    assert 0.0 <= r * r <= r;
    assert r * r * r <= r * r;
    r * r * r
  }

  /** `Math.floor(r * n)` for a draw `r` in [0, 1): an index below n. */
  function Pick(r: real, n: nat): (k: nat)
    requires UnitDraw(r) && n > 0
    ensures k < n
  {
    var v := Scale(r, n as real);
    v.Floor
  }

  /** The state `Star.init` gives a star on a canvas of the given size. */
  function Spawn(width: nat, height: nat, d: Draws): (s: StarState)
    requires ValidDraws(d)
    ensures s.blinkDir == 1 && 0.3 <= s.opacity < 0.9 && 0.005 <= s.blinkSpeed < 0.015
    ensures BlinkOk(s)
  {
    var x := Scale(d.x, width as real);
    var y := Scale(d.y, height as real);
    StarState(
      x := x, y := y, baseX := x, baseY := y, vx := 0.0, vy := 0.0,
      size := Cube(d.size) * 4.0 + 1.0,
      density := d.density * 30.0 + 10.0,
      opacity := d.opacity * 0.6 + 0.3,
      blinkSpeed := d.blink * 0.01 + 0.005,
      blinkDir := 1,
      colorBase := Palette[Pick(d.color, |Palette|)],
      shapeType := if d.shapeCoin > 0.8 then Pick(d.shapeKind, 3) else 0,
      rotation := Scale(d.rotation, 2.0 * Pi),
      rotationSpeed := (d.rotationSpeed - 0.5) * 0.02)
  }

  // ---------------------------------------------------------------------------
  // Star.update

  /**
   * The blink invariant: climbing, the opacity is at most 0.9 and at least one
   * step below 0.2; falling, it is at least 0.2 and at most one step above 0.9.
   */
  predicate BlinkInv(opacity: real, dir: int, speed: real) {
    || (dir == 1 && OpacityLow - speed <= opacity <= OpacityHigh)
    || (dir == -1 && OpacityLow <= opacity <= OpacityHigh + speed)
  }

  predicate BlinkOk(s: StarState) {
    s.blinkSpeed >= 0.0 && BlinkInv(s.opacity, s.blinkDir, s.blinkSpeed)
  }

  /** The reflecting opacity oscillator: step first, then flip the direction if the new value left [0.2, 0.9]. */
  function BlinkStep(opacity: real, dir: int, speed: real): (r: (real, int))
    ensures dir * dir == 1 ==> r.1 * r.1 == 1
    ensures r.0 - opacity == speed * dir as real
    ensures dir != 0 ==> ((r.0 > OpacityHigh || r.0 < OpacityLow) <==> r.1 == -dir)
    ensures speed >= 0.0 && BlinkInv(opacity, dir, speed) ==> BlinkInv(r.0, r.1, speed)
  {
    var o := opacity + speed * dir as real;
    (o, if o > OpacityHigh || o < OpacityLow then -dir else dir)
  }

  /** `v *= 0.92`: a nonzero component shrinks strictly in magnitude and keeps its sign. */
  function Damp(v: real): (r: real)
    ensures v > 0.0 ==> 0.0 < r < v
    ensures v < 0.0 ==> v < r < 0.0
    ensures v == 0.0 ==> r == 0.0
  {
    v * Damping
  }

  /** `p += (base - p) * 0.04`: the gap to the base position shrinks to 96 %. */
  function Pull(p: real, base: real): (r: real)
    ensures r - base == 0.96 * (p - base)
  {
    p + (base - p) * PullBack
  }

  /**
   * The pointer repulsion: applied only when the pointer is present and within
   * `MouseRadius` of `p`. `repel` is the displacement the source derives with
   * `Math.sqrt` from the pointer offset, the radius and the star's density; it
   * is an input here, so the contract can only say when it applies, which is
   * case by case what the body does.
   */
  function Repelled(p: Vec, mouse: Option<Vec>, repel: Vec): (r: Vec)
    ensures (mouse.None? || !Within(mouse.value, p, MouseRadius)) ==> r == p
    ensures (mouse.Some? && Within(mouse.value, p, MouseRadius)) ==> r == Vec(p.x - repel.x, p.y - repel.y)
  {
    match mouse
    case None => p
    case Some(m) => if Within(m, p, MouseRadius) then Vec(p.x - repel.x, p.y - repel.y) else p
  }

  /** One animation frame of `Star.update`. */
  function Step(s: StarState, mouse: Option<Vec>, repel: Vec): StarState {
    var (opacity, dir) := BlinkStep(s.opacity, s.blinkDir, s.blinkSpeed);
    var p := Repelled(Vec(s.x + s.vx, s.y + s.vy), mouse, repel);
    s.(opacity := opacity, blinkDir := dir,
       x := Pull(p.x, s.baseX), y := Pull(p.y, s.baseY),
       vx := Damp(s.vx), vy := Damp(s.vy),
       rotation := s.rotation + s.rotationSpeed)
  }

  /**
   * What one frame does: the fixed attributes stay, the rotation advances, the
   * velocity is damped, the position is pulled 4 % of the way back to its base
   * (after the repulsion, when the pointer is in range), and the blink invariant holds.
   */
  lemma StepFacts(s: StarState, mouse: Option<Vec>, repel: Vec)
    ensures var r := Step(s, mouse, repel);
      && r.baseX == s.baseX && r.baseY == s.baseY && r.size == s.size && r.density == s.density
      && r.colorBase == s.colorBase && r.shapeType == s.shapeType
      && r.blinkSpeed == s.blinkSpeed && r.rotationSpeed == s.rotationSpeed
      && r.rotation - s.rotation == s.rotationSpeed
      && r.vx == Damp(s.vx) && r.vy == Damp(s.vy)
    ensures var r := Step(s, mouse, repel);
      (mouse.None? || !Within(mouse.value, Vec(s.x + s.vx, s.y + s.vy), MouseRadius)) ==>
        r.x - s.baseX == 0.96 * (s.x + s.vx - s.baseX) &&
        r.y - s.baseY == 0.96 * (s.y + s.vy - s.baseY)
    ensures var r := Step(s, mouse, repel);
      (mouse.Some? && Within(mouse.value, Vec(s.x + s.vx, s.y + s.vy), MouseRadius)) ==>
        r.x - s.baseX == 0.96 * (s.x + s.vx - repel.x - s.baseX) &&
        r.y - s.baseY == 0.96 * (s.y + s.vy - repel.y - s.baseY)
    ensures BlinkOk(s) ==> BlinkOk(Step(s, mouse, repel))
  {
  }

  /** `Step` field by field, as `Star.update` writes them. */
  lemma StepFields(s: StarState, mouse: Option<Vec>, repel: Vec, o: real, dir: int, x: real, y: real)
    requires o == s.opacity + s.blinkSpeed * s.blinkDir as real
    requires dir == if o > OpacityHigh || o < OpacityLow then s.blinkDir * -1 else s.blinkDir
    requires var p := Repelled(Vec(s.x + s.vx, s.y + s.vy), mouse, repel);
      x == p.x + (s.baseX - p.x) * PullBack && y == p.y + (s.baseY - p.y) * PullBack
    ensures Step(s, mouse, repel) == s.(opacity := o, blinkDir := dir, x := x, y := y,
      vx := s.vx * Damping, vy := s.vy * Damping, rotation := s.rotation + s.rotationSpeed)
  {
  }

  /** What the field hands one star in one frame: the pointer (if any) and the repulsion it would cause. */
  datatype FrameInput = FrameInput(mouse: Option<Vec>, repel: Vec)

  /** A star after one `update` per input frame. */
  function Run(s: StarState, frames: seq<FrameInput>): StarState
    decreases |frames|
  {
    if frames == [] then s else Run(Step(s, frames[0].mouse, frames[0].repel), frames[1..])
  }

  /** The blink invariant survives any number of frames, whatever the pointer does. */
  lemma {:induction false} BlinkForever(s: StarState, frames: seq<FrameInput>)
    requires BlinkOk(s)
    ensures BlinkOk(Run(s, frames)) && Run(s, frames).blinkSpeed == s.blinkSpeed
    decreases |frames|
  {
    if frames != [] {
      StepFacts(s, frames[0].mouse, frames[0].repel);
      BlinkForever(Step(s, frames[0].mouse, frames[0].repel), frames[1..]);
    }
  }

  /** The ranges of every attribute `init` draws. */
  lemma SpawnRanges(width: nat, height: nat, d: Draws)
    requires ValidDraws(d)
    ensures var s := Spawn(width, height, d);
      && s.x == s.baseX && 0.0 <= s.x <= width as real && (width > 0 ==> s.x < width as real)
      && s.y == s.baseY && 0.0 <= s.y <= height as real && (height > 0 ==> s.y < height as real)
      && s.vx == 0.0 && s.vy == 0.0
      && 1.0 <= s.size < 5.0 && 10.0 <= s.density < 40.0
      && s.colorBase in Palette
      && 0 <= s.shapeType <= 2 && (d.shapeCoin <= 0.8 ==> s.shapeType == 0)
      && 0.0 <= s.rotation < 2.0 * Pi && -0.01 <= s.rotationSpeed < 0.01
  {
  }

  /**
   * From `init`, after any number of `update` calls the opacity stays within one
   * blink step of [0.2, 0.9] and the blink direction stays +1 or -1.
   */
  lemma {:induction false} OpacityBounded(width: nat, height: nat, d: Draws, frames: seq<FrameInput>)
    requires ValidDraws(d)
    ensures var r := Run(Spawn(width, height, d), frames);
      && 0.005 <= r.blinkSpeed < 0.015
      && OpacityLow - r.blinkSpeed <= r.opacity <= OpacityHigh + r.blinkSpeed
      && (r.blinkDir == 1 || r.blinkDir == -1)
  {
    BlinkForever(Spawn(width, height, d), frames);
  }

  /** The opacity does leave [0.2, 0.9]: a freshly initialised star passes 0.9 on its first frame. */
  lemma OpacityOvershoots()
    ensures var d := Draws(0.0, 0.0, 0.0, 0.0, 0.99, 0.9, 0.0, 0.0, 0.0, 0.0, 0.0);
      && ValidDraws(d)
      && Step(Spawn(1, 1, d), None, Vec(0.0, 0.0)).opacity > OpacityHigh
  {
  }

  /** ... and a falling star that satisfies the invariant can pass below 0.2. */
  lemma OpacityUndershoots()
    ensures var s := StarState(0.0, 0.0, 0.0, 0.0, 0.0, 0.0, 1.0, 10.0, 0.205, 0.01, -1, Palette[0], 0, 0.0, 0.0);
      && BlinkOk(s)
      && Step(s, None, Vec(0.0, 0.0)).opacity < OpacityLow
  {
  }

  function Pow(b: real, n: nat): real {
    if n == 0 then 1.0 else b * Pow(b, n - 1)
  }

  lemma {:induction false} PowShrinks(n: nat)
    ensures 0.0 < Pow(0.96, n + 1) < Pow(0.96, n) <= 1.0
  {
    if n > 0 {
      PowShrinks(n - 1);
    }
  }

  predicate PointerAbsent(frames: seq<FrameInput>) {
    forall k :: 0 <= k < |frames| ==> frames[k].mouse.None?
  }

  /**
   * A star at rest (zero velocity) with no pointer present relaxes
   * geometrically: after n frames its gap to the base position is 0.96^n times
   * the initial gap, and its velocity stays zero.
   */
  lemma {:induction false} Relaxation(s: StarState, frames: seq<FrameInput>)
    requires s.vx == 0.0 && s.vy == 0.0 && PointerAbsent(frames)
    ensures var r := Run(s, frames);
      && r.vx == 0.0 && r.vy == 0.0 && r.baseX == s.baseX && r.baseY == s.baseY
      && r.x - r.baseX == Pow(0.96, |frames|) * (s.x - s.baseX)
      && r.y - r.baseY == Pow(0.96, |frames|) * (s.y - s.baseY)
    decreases |frames|
  {
    if frames != [] {
      var t := Step(s, frames[0].mouse, frames[0].repel);
      StepFacts(s, frames[0].mouse, frames[0].repel);
      assert PointerAbsent(frames[1..]) by {
        forall k | 0 <= k < |frames[1..]| ensures frames[1..][k].mouse.None? {
          assert frames[1..][k] == frames[k + 1];
        }
      }
      Relaxation(t, frames[1..]);
      var p := Pow(0.96, |frames| - 1);
      assert p * (0.96 * (s.x - s.baseX)) == Pow(0.96, |frames|) * (s.x - s.baseX);
      assert p * (0.96 * (s.y - s.baseY)) == Pow(0.96, |frames|) * (s.y - s.baseY);
    }
  }

  // ---------------------------------------------------------------------------
  // The click handler's per-star write

  /**
   * A click at `click` seeds `impulse` (the source's outward velocity of size
   * (400 - d) / 8) into a star whose position lies within 400 pixels.
   */
  function Impulse(s: StarState, click: Vec, impulse: Vec): (r: StarState)
    ensures r.(vx := s.vx, vy := s.vy) == s
    ensures Within(Vec(s.x, s.y), click, ClickRadius) ==> r.vx == impulse.x && r.vy == impulse.y
    ensures !Within(Vec(s.x, s.y), click, ClickRadius) ==> r == s
  {
    if Within(Vec(s.x, s.y), click, ClickRadius) then s.(vx := impulse.x, vy := impulse.y) else s
  }

  // ---------------------------------------------------------------------------
  // Objects

  class Star {
    var x: real
    var y: real
    const baseX: real
    const baseY: real
    var vx: real
    var vy: real
    const size: real
    const density: real
    var opacity: real
    const blinkSpeed: real
    var blinkDir: int
    const colorBase: string
    const shapeType: int
    var rotation: real
    const rotationSpeed: real

    ghost function State(): StarState
      reads this
    {
      StarState(x, y, baseX, baseY, vx, vy, size, density, opacity, blinkSpeed, blinkDir,
                colorBase, shapeType, rotation, rotationSpeed)
    }

    ghost predicate Valid()
      reads this
    {
      BlinkOk(State())
    }

    /** `new Star()`, which runs `init()`. */
    constructor (width: nat, height: nat, d: Draws)
      requires ValidDraws(d)
      ensures State() == Spawn(width, height, d) && Valid()
    {
      x := Scale(d.x, width as real);
      y := Scale(d.y, height as real);
      vx := 0.0;
      vy := 0.0;
      size := Cube(d.size) * 4.0 + 1.0;
      baseX := x;
      baseY := y;
      density := d.density * 30.0 + 10.0;
      opacity := d.opacity * 0.6 + 0.3;
      blinkSpeed := d.blink * 0.01 + 0.005;
      blinkDir := 1;
      colorBase := Palette[Pick(d.color, |Palette|)];
      shapeType := if d.shapeCoin > 0.8 then Pick(d.shapeKind, 3) else 0;
      rotation := Scale(d.rotation, 2.0 * Pi);
      rotationSpeed := (d.rotationSpeed - 0.5) * 0.02;
    }

    /** `update()`: one frame of blinking, drifting, damping, spinning, repulsion and pull-back. */
    method Update(mouse: Option<Vec>, repel: Vec)
      modifies this
      ensures State() == Step(old(State()), mouse, repel)
    {
      ghost var s := State();
      var o := opacity + blinkSpeed * blinkDir as real;
      var dir := if o > OpacityHigh || o < OpacityLow then blinkDir * -1 else blinkDir;
      var nx := x + vx;
      var ny := y + vy;
      if mouse.Some? && Within(mouse.value, Vec(nx, ny), MouseRadius) {
        nx := nx - repel.x;
        ny := ny - repel.y;
      }
      nx := nx + (baseX - nx) * PullBack;
      ny := ny + (baseY - ny) * PullBack;
      StepFields(s, mouse, repel, o, dir, nx, ny);
      opacity, blinkDir := o, dir;
      x, y, vx, vy := nx, ny, vx * Damping, vy * Damping;
      rotation := rotation + rotationSpeed;
      assert State() == s.(opacity := o, blinkDir := dir, x := nx, y := ny,
        vx := s.vx * Damping, vy := s.vy * Damping, rotation := s.rotation + s.rotationSpeed);
    }
  }

  /** The shared `mouse` object: pointer position relative to the header, or absent. */
  class Mouse {
    var x: Option<real>
    var y: Option<real>
    const radius: real := MouseRadius

    ghost predicate Valid()
      reads this
    {
      x.None? <==> y.None?
    }

    constructor ()
      ensures Valid() && x.None? && y.None?
    {
      x := None;
      y := None;
    }

    /** The pointer as `update` sees it (`mouse.x != null`; a null `mouse.y` would read as 0). */
    function Position(): (p: Option<Vec>)
      reads this
      ensures p.None? <==> x.None?
      ensures Valid() && p.Some? ==> p.value == Vec(x.value, y.value)
    {
      if x.Some? then Some(Vec(x.value, if y.Some? then y.value else 0.0)) else None
    }

    /** The `mousemove` handler. */
    method Move(clientX: real, clientY: real, rectLeft: real, rectTop: real)
      modifies this
      ensures Valid() && Position() == Some(Vec(clientX - rectLeft, clientY - rectTop))
      ensures x == Some(clientX - rectLeft) && y == Some(clientY - rectTop)
    {
      x := Some(clientX - rectLeft);
      y := Some(clientY - rectTop);
    }

    /** The `mouseleave` handler. */
    method Leave()
      modifies this
      ensures Valid() && Position() == None
      ensures x == None && y == None
    {
      x := None;
      y := None;
    }
  }

  /** The closure state of starfield.js: canvas size, the `stars` array and the pointer. */
  class Field {
    var width: nat
    var height: nat
    var stars: seq<Star>
    const mouse: Mouse

    ghost predicate Valid()
      reads this, mouse, stars
    {
      && mouse.Valid()
      && |stars| == StarCount
      && Distinct(stars)
      && (forall i :: 0 <= i < |stars| ==> stars[i].Valid())
    }

    /** The script's start-up: measure the header, then `initStars`. */
    constructor (width: nat, height: nat, draws: seq<Draws>)
      requires |draws| == StarCount && forall i :: 0 <= i < |draws| ==> ValidDraws(draws[i])
      ensures Valid() && fresh(mouse) && mouse.Position() == None
      ensures this.width == width && this.height == height
      ensures forall i :: 0 <= i < |stars| ==> fresh(stars[i]) && stars[i].State() == Spawn(width, height, draws[i])
    {
      this.width := width;
      this.height := height;
      stars := [];
      mouse := new Mouse();
      new;
      InitStars(draws);
    }

    /** `initStars`: discard the old array and push `starCount` new stars. */
    method InitStars(draws: seq<Draws>)
      requires mouse.Valid()
      requires |draws| == StarCount && forall i :: 0 <= i < |draws| ==> ValidDraws(draws[i])
      modifies this`stars
      ensures Valid()
      ensures forall i :: 0 <= i < |stars| ==> fresh(stars[i]) && stars[i].State() == Spawn(width, height, draws[i])
    {
      stars := [];
      var i := 0;
      while i < StarCount
        invariant 0 <= i <= StarCount && |stars| == i
        invariant Distinct(stars)
        invariant forall j :: 0 <= j < i ==> fresh(stars[j]) && stars[j].State() == Spawn(width, height, draws[j])
      {
        var star := new Star(width, height, draws[i]);
        assert forall j :: 0 <= j < i ==> stars[j] != star;
        stars := stars + [star];
        i := i + 1;
      }
    }

    /** `resize`: take the header's new size and rebuild every star. */
    method Resize(width: nat, height: nat, draws: seq<Draws>)
      requires Valid()
      requires |draws| == StarCount && forall i :: 0 <= i < |draws| ==> ValidDraws(draws[i])
      modifies this
      ensures Valid() && this.width == width && this.height == height
      ensures forall i :: 0 <= i < |stars| ==> fresh(stars[i]) && stars[i].State() == Spawn(width, height, draws[i])
    {
      this.width := width;
      this.height := height;
      InitStars(draws);
    }

    /** The update half of one `animate` frame: every star, in array order, runs `update`. */
    method Advance(repels: seq<Vec>)
      requires Valid() && |repels| == |stars|
      modifies stars
      ensures Valid()
      ensures forall i :: 0 <= i < |stars| ==> stars[i].State() == Step(old(stars[i].State()), mouse.Position(), repels[i])
    {
      var pointer := mouse.Position();
      var i := 0;
      while i < |stars|
        invariant 0 <= i <= |stars|
        invariant forall j :: 0 <= j < i ==> stars[j].State() == Step(old(stars[j].State()), pointer, repels[j])
        invariant forall j :: i <= j < |stars| ==> stars[j].State() == old(stars[j].State())
      {
        assert forall j :: 0 <= j < |stars| && j != i ==> stars[j] != stars[i];
        stars[i].Update(pointer, repels[i]);
        i := i + 1;
      }
    }

    /** The `click` handler: seed velocities of the stars within 400 pixels; positions are never written. */
    method Click(clientX: real, clientY: real, rectLeft: real, rectTop: real, impulses: seq<Vec>)
      requires Valid() && |impulses| == |stars|
      modifies stars
      ensures Valid()
      ensures forall i :: 0 <= i < |stars| ==>
        stars[i].State() == Impulse(old(stars[i].State()), Vec(clientX - rectLeft, clientY - rectTop), impulses[i])
    {
      var clickX := clientX - rectLeft;
      var clickY := clientY - rectTop;
      var i := 0;
      while i < |stars|
        invariant 0 <= i <= |stars|
        invariant forall j :: 0 <= j < i ==>
          stars[j].State() == Impulse(old(stars[j].State()), Vec(clickX, clickY), impulses[j])
        invariant forall j :: i <= j < |stars| ==> stars[j].State() == old(stars[j].State())
      {
        var star := stars[i];
        assert forall j :: 0 <= j < |stars| && j != i ==> stars[j] != star;
        var dx := star.x - clickX;
        var dy := star.y - clickY;
        if dx * dx + dy * dy < ClickRadius * ClickRadius {
          star.vx := impulses[i].x;
          star.vy := impulses[i].y;
        }
        i := i + 1;
      }
    }
  }
}
