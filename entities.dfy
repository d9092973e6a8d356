// The three entity classes of fluppy/entities.py: the bird, a scrolling
// background band and a pipe pair. Each keeps the Python object's fields
// and updates them in place; the arithmetic each update performs is given as
// a function of the old values, and the properties the game relies on are
// proved about those functions.
//
// game.py's Bird and ScrollingLayer behave as these do, given its constants,
// which have the same values, and its PipePair behaves as this PipePair
// constructed with no sway, so the standalone game uses these classes too.
module Entities {
  import opened Geometry
  import opened Settings

  function Min(a: real, b: real): real { if a <= b then a else b }
  function Max(a: real, b: real): real { if a >= b then a else b }
  function Abs(a: real): real { if a < 0.0 then -a else a }

  predicate Distinct<T(==)>(s: seq<T>)
  {
    forall i, j :: 0 <= i < j < |s| ==> s[i] != s[j]
  }

  // ---------------------------------------------------------------- Bird --

  /** Size of a loaded image. */
  datatype Surface = Surface(width: nat, height: nat)

  /** What the bird displays: an animation frame as is, an animation frame
      rotated by `angle` degrees, or the death frame rotated by `angle`. */
  datatype Sprite = Upright(frame: nat) | Tilted(frame: nat, angle: real) | DeathPose(angle: real)

  /** Gravity over `dt` seconds, with the downward speed capped. */
  function Fall(v: real, dt: real): (r: real)
    ensures r <= MAX_DROP_SPEED
    ensures r <= v + GRAVITY * dt
    ensures r == v + GRAVITY * dt || r == MAX_DROP_SPEED
  {
    Min(v + GRAVITY * dt, MAX_DROP_SPEED)
  }

  /** The height a fall at speed `v` for `dt` seconds reaches from `y`. */
  function Drop(y: real, v: real, dt: real): real
  {
    y + v * dt
  }

  /** Nose angle for a velocity: proportional to the climb rate, clamped to
      [-25, 70] degrees. */
  function Tilt(v: real): (angle: real)
    ensures -25.0 <= angle <= 70.0
    ensures -25.0 <= -v * 0.06 <= 70.0 ==> angle == -v * 0.06
    ensures -v * 0.06 < -25.0 ==> angle == -25.0
    ensures 70.0 < -v * 0.06 ==> angle == 70.0
  {
    Max(-25.0, Min(-v * 0.06, 70.0))
  }

  /** The animation cursor: current frame and time spent on it. */
  datatype Animation = Animation(index: nat, timer: real)

  /** One animation tick over `count` frames: the cursor moves to the next
      frame, wrapping, exactly when the accumulated time reaches the frame
      period, and that move restarts the timer. */
  function Animate(a: Animation, dt: real, count: nat): (r: Animation)
    requires 0 < count
    ensures a.index < count ==> r.index < count
    ensures (a.timer + dt) * 1000.0 >= BIRD_ANIMATION_MS ==> r.index == (a.index + 1) % count && r.timer == 0.0
    ensures (a.timer + dt) * 1000.0 < BIRD_ANIMATION_MS ==> r.index == a.index && r.timer == a.timer + dt
  {
    var timer := a.timer + dt;
    if timer * 1000.0 >= BIRD_ANIMATION_MS then Animation((a.index + 1) % count, 0.0)
    else Animation(a.index, timer)
  }

  /** The idle bob: offset from the baseline and its direction of travel. */
  datatype Bob = Bob(offset: real, direction: int)

  predicate UnitDirection(d: int) { d == 1 || d == -1 }

  /** One idle-bob tick: move by the float speed in the current direction,
      and reverse the direction when the offset is now beyond the amplitude. */
  function Bobbed(b: Bob, dt: real): (r: Bob)
    requires UnitDirection(b.direction)
    ensures UnitDirection(r.direction)
    ensures r.offset == b.offset + START_FLOAT_SPEED * dt * b.direction as real
    ensures r.direction == -b.direction <==> Abs(r.offset) > START_FLOAT_AMPLITUDE
    ensures r.direction == b.direction <==> Abs(r.offset) <= START_FLOAT_AMPLITUDE
  {
    var offset := b.offset + START_FLOAT_SPEED * dt * b.direction as real;
    if Abs(offset) > START_FLOAT_AMPLITUDE then Bob(offset, -b.direction) else Bob(offset, b.direction)
  }

  /** The state the idle bob keeps when ticks all have the same length
      `dt`: the offset stays within one step of the amplitude, and beyond
      the amplitude the direction points back toward the baseline. */
  predicate SteadyBob(b: Bob, dt: real)
  {
    UnitDirection(b.direction)
    && Abs(b.offset) <= START_FLOAT_AMPLITUDE + START_FLOAT_SPEED * dt
    && (Abs(b.offset) > START_FLOAT_AMPLITUDE ==> b.offset * b.direction as real < 0.0)
  }

  /** At a steady frame time (one step shorter than twice the amplitude) the
      idle bob never drifts: the steady state is kept by every tick. */
  lemma BobStaysBounded(b: Bob, dt: real)
    requires 0.0 <= dt && START_FLOAT_SPEED * dt <= 2.0 * START_FLOAT_AMPLITUDE
    requires SteadyBob(b, dt)
    ensures SteadyBob(Bobbed(b, dt), dt)
  {
    var r := Bobbed(b, dt);
    var step := START_FLOAT_SPEED * dt;
    if b.direction == 1 {
      assert r.offset == b.offset + step;
    } else {
      assert r.offset == b.offset - step;
    }
  }

  /** Ticks of unequal length can walk the idle bob away from its baseline:
      a long tick that overshoots, then a short one that is still beyond the
      amplitude, turns the bob outward again; a second long tick carries it
      past twice the amplitude, and one more short tick there turns it
      outward once more. */
  lemma BobCanDriftWithUnevenTicks()
    ensures var b1 := Bobbed(Bob(0.0, 1), 4.0);
      var b2 := Bobbed(b1, 0.1);
      var b3 := Bobbed(b2, 4.0);
      var b4 := Bobbed(b3, 0.1);
      b2.offset > START_FLOAT_AMPLITUDE && b2.direction == 1
      && b4.offset > 2.0 * START_FLOAT_AMPLITUDE && b4.direction == 1
  {
  }

  class Bird {
    const frames: seq<Surface>
    const deathFrame: Surface
    var rect: Rect
    var positionY: real
    var velocity: real
    var frameIndex: nat
    var frameTimer: real
    var image: Sprite
    var floatOffset: real
    var floatDirection: int

    /** The rectangle keeps the first frame's size; the animation cursor
        stays on a frame; the bob direction is a unit. */
    ghost predicate Valid()
      reads this
    {
      0 < |frames| && frameIndex < |frames| && UnitDirection(floatDirection)
      && rect.w == frames[0].width && rect.h == frames[0].height
    }

    /** The state `reset(position)` (and construction) leaves. */
    ghost predicate AtStart(position: (int, int))
      reads this
    {
      0 < |frames|
      && rect == CenteredRect(frames[0].width, frames[0].height, position.0, position.1)
      && positionY == position.1 as real && velocity == 0.0
      && frameIndex == 0 && frameTimer == 0.0 && image == Upright(0)
      && floatOffset == 0.0 && floatDirection == 1
    }

    constructor (frames: seq<Surface>, deathFrame: Surface, start: (int, int))
      requires 0 < |frames|
      ensures Valid() && AtStart(start)
      ensures this.frames == frames && this.deathFrame == deathFrame
    {
      this.frames := frames;
      this.deathFrame := deathFrame;
      var r := CenteredRect(frames[0].width, frames[0].height, start.0, start.1);
      rect := r;
      positionY := r.CenterY() as real;
      velocity := 0.0;
      frameIndex := 0;
      frameTimer := 0.0;
      image := Upright(0);
      floatOffset := 0.0;
      floatDirection := 1;
    }

    method Reset(position: (int, int))
      requires Valid()
      modifies this
      ensures Valid() && AtStart(position)
    {
      rect := CenteredRect(frames[0].width, frames[0].height, position.0, position.1);
      positionY := rect.CenterY() as real;
      velocity := 0.0;
      frameIndex := 0;
      frameTimer := 0.0;
      image := Upright(0);
      floatOffset := 0.0;
      floatDirection := 1;
    }

    /** Nothing but the velocity changed, and it is the flap impulse. */
    twostate predicate Flapped()
      reads this
    {
      velocity == FLAP_VELOCITY
      && rect == old(rect) && positionY == old(positionY)
      && frameIndex == old(frameIndex) && frameTimer == old(frameTimer) && image == old(image)
      && floatOffset == old(floatOffset) && floatDirection == old(floatDirection)
    }

    /** The displayed image, the animation cursor and the idle bob are as
        they were. */
    twostate predicate PoseKept()
      reads this
    {
      image == old(image) && frameIndex == old(frameIndex) && frameTimer == old(frameTimer)
      && floatOffset == old(floatOffset) && floatDirection == old(floatDirection)
    }

    /** The impulse replaces the velocity, whatever it was. */
    method Flap()
      requires Valid()
      modifies this
      ensures Valid() && Flapped()
    {
      velocity := FLAP_VELOCITY;
    }

    /** One waiting-screen tick: animation, bob, and the bird placed at the
        baseline plus the bob offset; the velocity is left alone. */
    twostate predicate Floated(dt: real, baselineY: int)
      reads this
      requires 0 < |frames| && UnitDirection(old(floatDirection))
    {
      Animation(frameIndex, frameTimer) == Animate(Animation(old(frameIndex), old(frameTimer)), dt, |frames|)
      && image == Upright(frameIndex)
      && Bob(floatOffset, floatDirection) == Bobbed(Bob(old(floatOffset), old(floatDirection)), dt)
      && positionY == baselineY as real + floatOffset
      && rect == old(rect).WithCenterY(Trunc(positionY))
      && velocity == old(velocity)
    }

    method UpdateReady(dt: real, baselineY: int)
      requires Valid()
      modifies this
      ensures Valid() && Floated(dt, baselineY)
    {
      frameTimer := frameTimer + dt;
      if frameTimer * 1000.0 >= BIRD_ANIMATION_MS {
        frameTimer := 0.0;
        frameIndex := (frameIndex + 1) % |frames|;
      }
      image := Upright(frameIndex);
      floatOffset := floatOffset + START_FLOAT_SPEED * dt * floatDirection as real;
      if Abs(floatOffset) > START_FLOAT_AMPLITUDE {
        floatDirection := floatDirection * -1;
      }
      positionY := baselineY as real + floatOffset;
      rect := rect.WithCenterY(Trunc(positionY));
    }

    /** One flight tick: capped gravity, position advanced by the new
        velocity, animation, and the current frame tilted by the velocity. */
    twostate predicate Flew(dt: real)
      reads this
      requires 0 < |frames|
    {
      velocity == Fall(old(velocity), dt)
      && positionY == Drop(old(positionY), velocity, dt)
      && rect == old(rect).WithCenterY(Trunc(positionY))
      && Animation(frameIndex, frameTimer) == Animate(Animation(old(frameIndex), old(frameTimer)), dt, |frames|)
      && image == Tilted(frameIndex, Tilt(velocity))
      && floatOffset == old(floatOffset) && floatDirection == old(floatDirection)
    }

    method Update(dt: real)
      requires Valid()
      modifies this
      ensures Valid() && Flew(dt)
      ensures velocity <= MAX_DROP_SPEED
    {
      ghost var before := Animation(frameIndex, frameTimer);
      velocity := velocity + GRAVITY * dt;
      if velocity > MAX_DROP_SPEED {
        velocity := MAX_DROP_SPEED;
      }
      assert velocity == Fall(old(velocity), dt);
      positionY := positionY + velocity * dt;
      rect := rect.WithCenterY(Trunc(positionY));
      frameTimer := frameTimer + dt;
      if frameTimer * 1000.0 >= BIRD_ANIMATION_MS {
        frameTimer := 0.0;
        frameIndex := (frameIndex + 1) % |frames|;
      }
      assert Animation(frameIndex, frameTimer) == Animate(before, dt, |frames|);
      var angle := -velocity * 0.06;
      angle := Max(-25.0, Min(angle, 70.0));
      assert angle == Tilt(velocity);
      image := Tilted(frameIndex, angle);
    }

    /** One game-over tick: the same capped gravity, the death pose at a
        fixed 70 degrees, and no animation. */
    twostate predicate Fell(dt: real)
      reads this
    {
      velocity == Fall(old(velocity), dt)
      && positionY == old(positionY) + velocity * dt
      && rect == old(rect).WithCenterY(Trunc(positionY))
      && image == DeathPose(70.0)
      && frameIndex == old(frameIndex) && frameTimer == old(frameTimer)
      && floatOffset == old(floatOffset) && floatDirection == old(floatDirection)
    }

    /** The pose part of a flight tick, whatever later changes the motion:
        one animation tick, the current frame tilted by the new velocity,
        and the idle bob untouched. */
    twostate predicate Animated(dt: real)
      reads this
      requires 0 < |frames|
    {
      Animation(frameIndex, frameTimer) == Animate(Animation(old(frameIndex), old(frameTimer)), dt, |frames|)
      && image == Tilted(frameIndex, Tilt(Fall(old(velocity), dt)))
      && floatOffset == old(floatOffset) && floatDirection == old(floatDirection)
    }

    method UpdateFalling(dt: real)
      requires Valid()
      modifies this
      ensures Valid() && Fell(dt)
    {
      velocity := Min(velocity + GRAVITY * dt, MAX_DROP_SPEED);
      positionY := positionY + velocity * dt;
      rect := rect.WithCenterY(Trunc(positionY));
      image := DeathPose(70.0);
    }
  }

  // ------------------------------------------------------ ScrollingLayer --

  /** Both draw positions moved left by `distance`. */
  function Shifted(ps: seq<real>, distance: real): (r: seq<real>)
    requires |ps| == 2
    ensures |r| == 2 && r[0] == ps[0] - distance && r[1] == ps[1] - distance
  {
    [ps[0] - distance, ps[1] - distance]
  }

  /** The wrap of position `i`: once a full band-width off the left edge it
      is moved to one band-width right of the other position. */
  function WrappedAt(ps: seq<real>, width: real, i: nat): (r: seq<real>)
    requires |ps| == 2 && i < 2
    ensures |r| == 2 && r[1 - i] == ps[1 - i]
    ensures ps[i] <= -width ==> r[i] == ps[1 - i] + width
    ensures -width < ps[i] ==> r[i] == ps[i]
  {
    if ps[i] <= -width then ps[i := ps[1 - i] + width] else ps
  }

  /** The wraps of positions 0 .. n-1, in that order. */
  function WrappedUpTo(ps: seq<real>, width: real, n: nat): (r: seq<real>)
    requires |ps| == 2 && n <= 2
    ensures |r| == 2
  {
    if n == 0 then ps else WrappedAt(WrappedUpTo(ps, width, n - 1), width, n - 1)
  }

  /** One scroll of a band `width` wide by `distance`. */
  function Scrolled(ps: seq<real>, width: real, distance: real): (r: seq<real>)
    requires |ps| == 2
    ensures |r| == 2
  {
    WrappedUpTo(Shifted(ps, distance), width, 2)
  }

  /** The two positions are exactly one band-width apart. */
  predicate Spaced(ps: seq<real>, width: real)
  {
    |ps| == 2 && (ps[1] - ps[0] == width || ps[0] - ps[1] == width)
  }

  /** The left copy starts in (-width, 0], so with the right copy right
      after it the screen's left edge is always drawn over. */
  predicate Covering(ps: seq<real>, width: real)
  {
    Spaced(ps, width) && -width < Min(ps[0], ps[1]) <= 0.0
  }

  /** Scrolling, however far, keeps the two positions one band-width apart. */
  lemma ScrollKeepsSpacing(ps: seq<real>, width: real, distance: real)
    requires 0.0 <= width && Spaced(ps, width)
    ensures Spaced(Scrolled(ps, width, distance), width)
  {
    var s := Shifted(ps, distance);
    var a := WrappedAt(s, width, 0);
    assert WrappedUpTo(s, width, 1) == a;
    var b := WrappedAt(a, width, 1);
    assert Scrolled(ps, width, distance) == b;
  }

  /** A scroll of at most one band-width keeps the screen's left edge
      covered. */
  lemma ScrollKeepsCover(ps: seq<real>, width: real, distance: real)
    requires 0.0 < width && 0.0 <= distance <= width
    requires Covering(ps, width)
    ensures Covering(Scrolled(ps, width, distance), width)
  {
    ScrollKeepsSpacing(ps, width, distance);
    var s := Shifted(ps, distance);
    var a := WrappedAt(s, width, 0);
    assert WrappedUpTo(s, width, 1) == a;
    var b := WrappedAt(a, width, 1);
    assert Scrolled(ps, width, distance) == b;
  }

  /** The draw positions after a run of scrolls. */
  function ScrollRun(ps: seq<real>, width: real, distances: seq<real>): (r: seq<real>)
    requires |ps| == 2
    ensures |r| == 2
  {
    if distances == [] then ps
    else Scrolled(ScrollRun(ps, width, distances[..|distances| - 1]), width, distances[|distances| - 1])
  }

  /** From the reset positions [0, width], any run of scrolls of at most one
      band-width each leaves no gap at the left edge of the screen. */
  lemma {:induction false} ScrollRunCovers(width: real, distances: seq<real>)
    requires 0.0 < width
    requires forall i :: 0 <= i < |distances| ==> 0.0 <= distances[i] <= width
    ensures Covering(ScrollRun([0.0, width], width, distances), width)
  {
    if distances != [] {
      var front := distances[..|distances| - 1];
      ScrollRunCovers(width, front);
      ScrollKeepsCover(ScrollRun([0.0, width], width, front), width, distances[|distances| - 1]);
    }
  }

  /** The bound per scroll is needed: a single scroll of five band-widths
      leaves both copies left of the screen. */
  lemma LongScrollLeavesGap()
    ensures var r := Scrolled([0.0, 10.0], 10.0, 50.0);
      r == [-30.0, -20.0] && !Covering(r, 10.0)
  {
  }

  class ScrollingLayer {
    const width: nat
    const height: nat
    const speed: real
    const y: int
    var positions: seq<real>

    ghost predicate Valid()
      reads this
    {
      |positions| == 2
    }

    /** The positions a reset (and construction) gives. */
    ghost predicate AtRest()
      reads this
    {
      positions == [0.0, width as real]
    }

    constructor (width: nat, height: nat, speed: real, y: int)
      ensures Valid() && AtRest()
      ensures this.width == width && this.height == height && this.speed == speed && this.y == y
    {
      this.width := width;
      this.height := height;
      this.speed := speed;
      this.y := y;
      positions := [0.0, width as real];
    }

    method Reset()
      modifies this
      ensures Valid() && AtRest()
    {
      positions := [0.0, width as real];
    }

    /** The positions after one tick: a band with no speed never moves. */
    ghost function Next(ps: seq<real>, dt: real): (r: seq<real>)
      requires |ps| == 2
      ensures speed == 0.0 ==> r == ps
    {
      if speed == 0.0 then ps else Scrolled(ps, width as real, speed * dt)
    }

    method Update(dt: real)
      requires Valid()
      modifies this
      ensures Valid() && positions == Next(old(positions), dt)
    {
      if speed == 0.0 {
        return;
      }
      var distance := speed * dt;
      for i := 0 to 2
        invariant |positions| == 2
        invariant forall k :: 0 <= k < i ==> positions[k] == old(positions[k]) - distance
        invariant forall k :: i <= k < 2 ==> positions[k] == old(positions[k])
      {
        positions := positions[i := positions[i] - distance];
      }
      ghost var shifted := positions;
      assert shifted == Shifted(old(positions), distance);
      for i := 0 to 2
        invariant positions == WrappedUpTo(shifted, width as real, i)
      {
        if positions[i] <= -(width as real) {
          var other := 1 - i;
          positions := positions[i := positions[other] + width as real];
        }
      }
    }
  }

  /** `for layer in layers: layer.reset()`. */
  method ResetAll(layers: seq<ScrollingLayer>)
    requires Distinct(layers)
    modifies layers
    ensures forall k :: 0 <= k < |layers| ==> layers[k].Valid() && layers[k].AtRest()
  {
    for i := 0 to |layers|
      invariant forall k :: 0 <= k < i ==> layers[k].Valid() && layers[k].AtRest()
    {
      layers[i].Reset();
    }
  }

  /** `for layer in layers: layer.update(dt)`. */
  method UpdateAll(layers: seq<ScrollingLayer>, dt: real)
    requires Distinct(layers) && forall k :: 0 <= k < |layers| ==> layers[k].Valid()
    modifies layers
    ensures forall k :: 0 <= k < |layers| ==>
      layers[k].Valid() && old(layers[k].Valid()) && layers[k].positions == layers[k].Next(old(layers[k].positions), dt)
  {
    for i := 0 to |layers|
      invariant forall k :: 0 <= k < i ==> layers[k].Valid() && layers[k].positions == layers[k].Next(old(layers[k].positions), dt)
      invariant forall k :: i <= k < |layers| ==> layers[k].Valid() && layers[k].positions == old(layers[k].positions)
    {
      layers[i].Update(dt);
    }
  }

  // ------------------------------------------------------------ PipePair --

  /** A pipe image variant and its opacity mask. */
  datatype PipeVariant = PipeVariant(width: nat, height: nat, mask: Mask)

  /** Where a pair spawned with centre `gapY` and gap `gap` puts its two
      halves: the lower half's top edge and the upper half's bottom edge. */
  function GapEdges(gapY: int, gap: int): (edges: (int, int))
  {
    (Trunc(gapY as real + gap as real / 2.0), Trunc(gapY as real - gap as real / 2.0))
  }

  /** At spawn the halves are exactly `gap` apart, centred on `gapY`. */
  lemma SpawnGapIsExact(gapY: int, gap: int)
    requires gap % 2 == 0
    ensures GapEdges(gapY, gap).0 - GapEdges(gapY, gap).1 == gap
    ensures GapEdges(gapY, gap).0 == gapY + gap / 2
  {
    var half := gap / 2;
    assert gap as real / 2.0 == half as real;
    assert gapY as real + half as real == (gapY + half) as real;
    assert gapY as real - half as real == (gapY - half) as real;
  }

  /** While swaying, both halves are placed from one centre `c`: the lower
      half's top at c + gap/2 and the upper half's bottom at c - gap/2,
      each truncated. While the upper edge is not above the screen the
      separation is exactly the gap. */
  lemma SwayGapIsExact(c: real, gap: int)
    requires gap % 2 == 0 && 0 <= gap
    requires 0.0 <= c - gap as real / 2.0
    ensures Trunc(c + gap as real / 2.0) - Trunc(c - gap as real / 2.0) == gap
  {
    TruncShift(c - gap as real / 2.0, gap);
    assert (c - gap as real / 2.0) + gap as real == c + gap as real / 2.0;
  }

  class PipePair {
    const topMask: Mask
    const bottomMask: Mask
    const swayAmplitude: int
    const swaySpeed: real
    const baseGapCenter: int
    var topRect: Rect
    var bottomRect: Rect
    var x: real
    var passed: bool
    var time: real

    /** Python truthiness of `sway_amplitude and sway_speed`. */
    predicate Sways()
    {
      swayAmplitude != 0 && swaySpeed != 0.0
    }

    /** The swayed gap centre at phase `t`, with `sine` the math library's sine. */
    function SwayCenter(t: real, sine: real -> real): real
    {
      baseGapCenter as real + sine(t) * swayAmplitude as real
    }

    /** `random.choice` draws are the indices `bottomPick` and `topPick`. */
    constructor (variants: seq<PipeVariant>, x: int, gapY: int, gap: int,
                 swayAmplitude: int, swaySpeed: real, bottomPick: nat, topPick: nat)
      requires bottomPick < |variants| && topPick < |variants|
      ensures bottomMask == variants[bottomPick].mask
      ensures topMask == FlipVertical(variants[topPick].mask)
      ensures bottomRect == Rect(0, 0, variants[bottomPick].width, variants[bottomPick].height)
                              .WithMidTop(x, GapEdges(gapY, gap).0)
      ensures topRect == Rect(0, 0, variants[topPick].width, variants[topPick].height)
                           .WithMidBottom(x, GapEdges(gapY, gap).1)
      ensures this.x == x as real && !passed && time == 0.0
      ensures this.swayAmplitude == swayAmplitude && this.swaySpeed == swaySpeed
      ensures baseGapCenter == gapY
    {
      var bottom := variants[bottomPick];
      var top := variants[topPick];
      bottomMask := bottom.mask;
      topMask := FlipVertical(top.mask);
      var lower := Rect(0, 0, bottom.width, bottom.height).WithMidTop(x, Trunc(gapY as real + gap as real / 2.0));
      bottomRect := lower;
      topRect := Rect(0, 0, top.width, top.height).WithMidBottom(x, Trunc(gapY as real - gap as real / 2.0));
      this.x := lower.CenterX() as real;
      passed := false;
      this.swayAmplitude := swayAmplitude;
      this.swaySpeed := swaySpeed;
      baseGapCenter := gapY;
      time := 0.0;
    }

    /** The fields a tick or a score changes, as a value. */
    function Now(): PipeMotion
      reads this
    {
      PipeMotion(x, time, topRect, bottomRect, passed)
    }

    /** One tick of motion from `m` to `n`, with `pipeSpeed` and `pipeGap`
        the settings globals read during the tick: `x` moves left, both
        halves follow its integer part, and a swaying pair re-places both
        halves around the swayed centre. */
    predicate Moves(m: PipeMotion, n: PipeMotion, dt: real, pipeSpeed: int, pipeGap: int, sine: real -> real)
    {
      n.x == m.x - pipeSpeed as real * dt
      && if Sways() then
           n.time == m.time + dt * swaySpeed
           && n.bottomRect == m.bottomRect.WithMidTop(Trunc(n.x), Trunc(SwayCenter(n.time, sine) + pipeGap as real / 2.0))
           && n.topRect == m.topRect.WithMidBottom(Trunc(n.x), Trunc(SwayCenter(n.time, sine) - pipeGap as real / 2.0))
         else
           n.time == m.time
           && n.bottomRect == m.bottomRect.WithCenterX(Trunc(n.x))
           && n.topRect == m.topRect.WithCenterX(Trunc(n.x))
    }

    method Update(dt: real, pipeSpeed: int, pipeGap: int, sine: real -> real)
      modifies this
      ensures Moves(old(Now()), Now(), dt, pipeSpeed, pipeGap, sine) && passed == old(passed)
      ensures bottomRect.CenterX() == Trunc(x) && topRect.CenterX() == Trunc(x)
      ensures !Sways() ==> bottomRect.y == old(bottomRect.y) && topRect.y == old(topRect.y)
    {
      x := x - pipeSpeed as real * dt;
      var column := Trunc(x);
      bottomRect := bottomRect.WithCenterX(column);
      topRect := topRect.WithCenterX(column);
      if swayAmplitude != 0 && swaySpeed != 0.0 {
        time := time + dt * swaySpeed;
        var offset := sine(time) * swayAmplitude as real;
        var center := baseGapCenter as real + offset;
        assert center == SwayCenter(time, sine);
        var halfGap := pipeGap as real / 2.0;
        bottomRect := bottomRect.WithMidTop(column, Trunc(center + halfGap));
        topRect := topRect.WithMidBottom(column, Trunc(center - halfGap));
      }
    }

    /** The lower half's right edge is more than 10 pixels left of the screen. */
    predicate IsOffscreen()
      reads this
    {
      bottomRect.Right() < -10
    }

    /** A pair off screen stays off screen: moving left, at a speed that is
        not negative, with its lower half centred on `int(x)`, never brings
        the lower half's right edge back to -10 or beyond. */
    lemma StaysOffscreen(m: PipeMotion, n: PipeMotion, dt: real, pipeSpeed: int, pipeGap: int, sine: real -> real)
      requires Moves(m, n, dt, pipeSpeed, pipeGap, sine)
      requires 0.0 <= pipeSpeed as real * dt && m.bottomRect.CenterX() == Trunc(m.x)
      requires Offscreen(m)
      ensures Offscreen(n) && n.bottomRect.CenterX() == Trunc(n.x)
    {
      TruncMonotone(n.x, m.x);
    }

    /** Pixel-exact collision with the bird: the upper half is tested first,
        then the lower half; a hit means a shared opaque screen pixel. */
    function CollidesWith(birdMask: Mask, birdRect: Rect): (hit: bool)
      reads this
      ensures hit <==> Placed(birdMask, birdRect) * Placed(topMask, topRect) != {}
                       || Placed(birdMask, birdRect) * Placed(bottomMask, bottomRect) != {}
    {
      var topOffset := (topRect.x - birdRect.x, topRect.y - birdRect.y);
      var bottomOffset := (bottomRect.x - birdRect.x, bottomRect.y - birdRect.y);
      OverlapsIffSharedPixel(birdMask, birdRect, topMask, topRect);
      OverlapsIffSharedPixel(birdMask, birdRect, bottomMask, bottomRect);
      if Overlaps(birdMask, topMask, topOffset.0, topOffset.1) then true
      else if Overlaps(birdMask, bottomMask, bottomOffset.0, bottomOffset.1) then true
      else false
    }
  }

  // ------------------------------------------------- lists of pipe pairs --

  /** A pair's changing fields at one moment: `x`, the sway phase, both
      halves and the `passed` latch. */
  datatype PipeMotion = PipeMotion(x: real, time: real, topRect: Rect, bottomRect: Rect, passed: bool)

  /** `is_offscreen()` on a recorded state. */
  predicate Offscreen(m: PipeMotion)
  {
    m.bottomRect.Right() < -10
  }

  /** The states of the pairs of `ps`, in order. */
  function Snapshots(ps: seq<PipePair>): (ms: seq<PipeMotion>)
    reads ps
    ensures |ms| == |ps|
  {
    if ps == [] then [] else Snapshots(ps[..|ps| - 1]) + [ps[|ps| - 1].Now()]
  }

  /** Position `k` of the snapshots is the state of the pair at `k`. */
  lemma {:induction false} SnapshotsMeans(ps: seq<PipePair>)
    ensures forall k :: 0 <= k < |ps| ==> Snapshots(ps)[k] == ps[k].Now()
  {
    if ps != [] {
      var n := |ps| - 1;
      SnapshotsMeans(ps[..n]);
      assert forall k :: 0 <= k < n ==> ps[..n][k] == ps[k];
    }
  }

  /** The off-screen flags of recorded states. */
  function OffFlags(ms: seq<PipeMotion>): (flags: seq<bool>)
    ensures |flags| == |ms|
  {
    if ms == [] then [] else OffFlags(ms[..|ms| - 1]) + [Offscreen(ms[|ms| - 1])]
  }

  /** The `passed` latches of recorded states. */
  function PassedOf(ms: seq<PipeMotion>): (flags: seq<bool>)
    ensures |flags| == |ms|
  {
    if ms == [] then [] else PassedOf(ms[..|ms| - 1]) + [ms[|ms| - 1].passed]
  }

  lemma FlagsSnoc(ms: seq<PipeMotion>, m: PipeMotion)
    ensures OffFlags(ms + [m]) == OffFlags(ms) + [Offscreen(m)]
    ensures PassedOf(ms + [m]) == PassedOf(ms) + [m.passed]
  {
    assert (ms + [m])[..|ms|] == ms;
  }

  lemma {:induction false} FlagsAt(ms: seq<PipeMotion>, k: nat)
    requires k < |ms|
    ensures OffFlags(ms)[k] == Offscreen(ms[k]) && PassedOf(ms)[k] == ms[k].passed
  {
    var n := |ms| - 1;
    if k < n {
      FlagsAt(ms[..n], k);
      assert ms[..n][k] == ms[k];
    }
  }

  /** Python's `list.remove(x)`: drop the first element equal to `x`. */
  function RemoveFirst<T(==)>(s: seq<T>, x: T): (r: seq<T>)
    requires x in s
    ensures |r| == |s| - 1
  {
    assert s == [s[0]] + s[1..];
    if s[0] == x then s[1..] else [s[0]] + RemoveFirst(s[1..], x)
  }

  /** Removing an element that does not occur before its position drops
      exactly that position. */
  lemma {:induction false} RemoveFirstAt<T>(a: seq<T>, x: T, b: seq<T>)
    requires x !in a
    ensures RemoveFirst(a + [x] + b, x) == a + b
  {
    var s := a + [x] + b;
    assert x in s by { assert s[|a|] == x; }
    if a == [] {
      assert s[0] == x && s[1..] == b;
    } else {
      assert s[0] == a[0] && a[0] != x;
      var t := a[1..] + [x] + b;
      assert s[1..] == t;
      assert x in t by { assert t[|a| - 1] == x; }
      assert RemoveFirst(s, x) == [a[0]] + RemoveFirst(t, x);
      RemoveFirstAt(a[1..], x, b);
      assert a + b == [a[0]] + (a[1..] + b);
    }
  }

  /** In a list without repeats, no other position holds the element at `i`. */
  lemma OthersDiffer<T>(s: seq<T>, i: nat)
    requires Distinct(s) && i < |s|
    ensures forall k :: 0 <= k < |s| && k != i ==> s[k] != s[i]
  {
  }

  /** The elements of `s` whose flag in `gone` is false, in order. */
  function Kept<T>(s: seq<T>, gone: seq<bool>): (r: seq<T>)
    requires |s| == |gone|
  {
    if s == [] then []
    else
      var k := |s| - 1;
      Kept(s[..k], gone[..k]) + if gone[k] then [] else [s[k]]
  }

  /** Filtering keeps only elements of the list. */
  lemma {:induction false} KeptWithin<T>(s: seq<T>, gone: seq<bool>)
    requires |s| == |gone|
    ensures forall x :: x in Kept(s, gone) ==> x in s
  {
    if s != [] {
      var k := |s| - 1;
      KeptWithin(s[..k], gone[..k]);
      assert forall x :: x in s[..k] ==> x in s;
    }
  }

  /** Extending a walk by one position keeps or drops that position. */
  lemma KeptSnoc<T>(s: seq<T>, gone: seq<bool>, i: nat, b: bool)
    requires i < |s| && |gone| == i
    ensures Kept(s[..i + 1], gone + [b]) == Kept(s[..i], gone) + if b then [] else [s[i]]
  {
    assert s[..i + 1][..i] == s[..i];
    assert (gone + [b])[..i] == gone;
  }

  /** In a list without repeats, an element does not occur before its position. */
  lemma NotBefore<T>(s: seq<T>, i: nat)
    requires Distinct(s) && i < |s|
    ensures s[i] !in s[..i]
  {
  }

  /** One step of a walk over `s` that drops the element at the cursor when
      `b` holds: the list `Kept(s[..i], gone) + s[i..]` loses exactly the
      cursor's element, or stays as it is. */
  lemma ListStep<T>(s: seq<T>, gone: seq<bool>, i: nat, b: bool)
    requires Distinct(s) && i < |s| && |gone| == i
    ensures s[i] in Kept(s[..i], gone) + s[i..]
    ensures b ==> RemoveFirst(Kept(s[..i], gone) + s[i..], s[i]) == Kept(s[..i + 1], gone + [b]) + s[i + 1..]
    ensures !b ==> Kept(s[..i], gone) + s[i..] == Kept(s[..i + 1], gone + [b]) + s[i + 1..]
  {
    var done := Kept(s[..i], gone);
    var rest := s[i + 1..];
    KeptWithin(s[..i], gone);
    NotBefore(s, i);
    assert s[i] !in done;
    assert s[i..] == [s[i]] + rest;
    assert done + s[i..] == done + [s[i]] + rest;
    assert (done + [s[i]] + rest)[|done|] == s[i];
    KeptSnoc(s, gone, i, b);
    if b {
      RemoveFirstAt(done, s[i], rest);
      assert done + [] == done;
    }
  }

  /** The pairs of `ps` not yet off screen, in their order. */
  function Surviving(ps: seq<PipePair>): seq<PipePair>
    reads ps
  {
    if ps == [] then []
    else
      var last := ps[|ps| - 1];
      var rest := Surviving(ps[..|ps| - 1]);
      if last.IsOffscreen() then rest else rest + [last]
  }

  /** `Surviving` is the on-screen filter: it keeps exactly the pairs of
      `ps` that are not off screen, and never more pairs than `ps` has. */
  lemma {:induction false} SurvivingIsFilter(ps: seq<PipePair>)
    ensures |Surviving(ps)| <= |ps|
    ensures forall p :: p in Surviving(ps) <==> p in ps && !p.IsOffscreen()
  {
    if ps != [] {
      var front := ps[..|ps| - 1];
      SurvivingIsFilter(front);
      assert ps == front + [ps[|ps| - 1]];
    }
  }

  /** Dropping the pairs whose recorded state is off screen, when the
      records are the pairs' current states, is the on-screen filter. */
  lemma {:induction false} KeptIsSurviving(ps: seq<PipePair>)
    ensures Kept(ps, OffFlags(Snapshots(ps))) == Surviving(ps)
  {
    if ps != [] {
      var n := |ps| - 1;
      var ms := Snapshots(ps);
      assert ms[..n] == Snapshots(ps[..n]);
      assert OffFlags(ms)[..n] == OffFlags(ms[..n]);
      KeptIsSurviving(ps[..n]);
    }
  }

  /** Filtering a list of distinct pairs keeps them distinct. */
  lemma {:induction false} SurvivingDistinct(ps: seq<PipePair>)
    requires Distinct(ps)
    ensures Distinct(Surviving(ps))
  {
    if ps != [] {
      var front := ps[..|ps| - 1];
      assert Distinct(front);
      SurvivingDistinct(front);
      SurvivingIsFilter(front);
      var last := ps[|ps| - 1];
      assert last !in front;
      var rest := Surviving(front);
      if !last.IsOffscreen() {
        assert last !in rest;
        var r := rest + [last];
        forall i, j | 0 <= i < j < |r|
          ensures r[i] != r[j]
        {
          if j == |rest| {
            assert r[i] in rest;
          }
        }
      }
    }
  }

  /** How many flags went from false to true. */
  function Flips(before: seq<bool>, after: seq<bool>): (n: nat)
    requires |before| == |after|
    ensures n <= |after|
  {
    if before == [] then 0
    else
      var k := |before| - 1;
      Flips(before[..k], after[..k]) + if !before[k] && after[k] then 1 else 0
  }

  /** Extending both flag lists by one position. */
  lemma FlipsSnoc(before: seq<bool>, after: seq<bool>, b: bool, a: bool)
    requires |before| == |after|
    ensures Flips(before + [b], after + [a]) == Flips(before, after) + if !b && a then 1 else 0
  {
    assert (before + [b])[..|before|] == before;
    assert (after + [a])[..|after|] == after;
  }

  /** A flip count is the number of positions that went from false to
      true: none when nothing changed, and it grows by one exactly for a
      newly raised flag. */
  lemma {:induction false} FlipsCountsRaisedFlags(before: seq<bool>, after: seq<bool>)
    requires |before| == |after|
    ensures (forall i :: 0 <= i < |before| ==> before[i] || !after[i]) <==> Flips(before, after) == 0
    ensures Flips(before, after) == |after| <==> forall i :: 0 <= i < |before| ==> !before[i] && after[i]
  {
    if before != [] {
      var k := |before| - 1;
      FlipsCountsRaisedFlags(before[..k], after[..k]);
      assert forall i :: 0 <= i < k ==> before[..k][i] == before[i] && after[..k][i] == after[i];
    }
  }

  /** Some pair of `ps` shares an opaque pixel with the bird's mask at `r`. */
  predicate AnyCollides(ps: seq<PipePair>, birdMask: Mask, r: Rect)
    reads ps
  {
    exists k :: 0 <= k < |ps| && ps[k].CollidesWith(birdMask, r)
  }
}
