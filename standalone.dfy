// The single-file game of game.py. Its `Bird` and `ScrollingLayer` behave as
// the package's classes do, given its constants, and its `PipePair` behaves
// as the package's without sway, so the model reuses the Entities classes
// and builds every pair with sway amplitude 0. Its constants (game.py:11-20, 50-51) have the
// same values as the package's settings. Its own `FluppyGame` differs from
// the package's: it has fixed settings and no difficulty, a reset that
// always keeps the best score, a fixed spawn margin, a background scroll
// that skips the sky, and collision checks that clamp the bird at the
// ceiling without ending the round.
module Standalone {
  import opened Geometry
  import opened Settings
  import opened Entities
  import opened GameStates
  import App

  /** `spawn_pipe`'s margin: the gap centre is drawn at least this far below
      the top of the screen and above the ground line. */
  const MARGIN: int := 180
  /** New pairs appear 100 pixels right of the screen. */
  const SPAWN_X: int := SCREEN_WIDTH + 100

  /** The sine a pair would read while swaying; these pairs never sway, so
      no tick consults it. */
  function Level(t: real): real { 0.0 }

  /** A centre drawn from `randint(margin, ground_top - margin)` keeps the
      whole gap on screen: both halves are `PIPE_GAP` apart, and each gap
      edge is at least 50 pixels from the top of the screen and from the
      ground line. */
  lemma SpawnedGapOnScreen(gapY: int, groundTop: int)
    requires MARGIN <= gapY <= groundTop - MARGIN
    ensures GapEdges(gapY, PIPE_GAP).0 - GapEdges(gapY, PIPE_GAP).1 == PIPE_GAP
    ensures 50 <= GapEdges(gapY, PIPE_GAP).1
    ensures GapEdges(gapY, PIPE_GAP).0 <= groundTop - 50
  {
    SpawnGapIsExact(gapY, PIPE_GAP);
  }

  /** The bird of `o` after the ceiling check of `_check_collisions()`: at
      or above the top it is clamped there and stopped, with its height on
      the clamped centre; the phase and the cue log stay. */
  function Clamped(o: App.Outcome): App.Outcome
  {
    if o.rect.Top() <= 0 then
      var c := o.rect.WithTop(0);
      o.(rect := c, velocity := 0.0, positionY := c.CenterY() as real)
    else
      o
  }

  /** The outcome of `_check_collisions()` for the bird, phase and cue log
      of `found`, where `hit` says whether some live pair shares an opaque
      pixel with the bird after the ceiling clamp: the ceiling only clamps;
      then at or below the ground line the bird is clamped onto it, with a
      hit and a death cry; else a pipe hit ends the round with a hit;
      otherwise nothing more changes. */
  function CheckOutcome(found: App.Outcome, hit: bool, groundY: int): App.Outcome
  {
    var o := Clamped(found);
    if o.rect.Bottom() >= groundY then
      var c := o.rect.WithBottom(groundY);
      o.(rect := c, positionY := c.CenterY() as real, state := GameOver, cues := o.cues + App.GameOverCues(true))
    else if hit then
      o.(state := GameOver, cues := o.cues + App.GameOverCues(false))
    else
      o
  }

  /** Unlike the package's checks, the ceiling never ends the round: the
      round ends exactly when the clamped bird meets the ground line or a
      pipe (or it was already over); a round that goes on leaves the bird
      at or below the top and above the ground line with the log as it
      was, and a bird that was at the ceiling is then stopped; a round that
      ends adds a hit cue, followed by a death cry exactly when the bird
      met the ground. */
  lemma CheckOutcomeEndsRound(found: App.Outcome, hit: bool, groundY: int)
    ensures var o := CheckOutcome(found, hit, groundY);
      var c := Clamped(found).rect;
      (o.state == GameOver <==> c.Bottom() >= groundY || hit || found.state == GameOver)
      && (o.state != GameOver ==> o.rect == c && 0 <= c.Top() && c.Bottom() < groundY && o.cues == found.cues)
      && (found.rect.Top() <= 0 && c.Bottom() < groundY ==> o.velocity == 0.0 && c == found.rect.WithTop(0))
      && (c.Bottom() >= groundY || hit ==> o.cues == found.cues + App.GameOverCues(c.Bottom() >= groundY))
  { }

  class FluppyGame {
    const pipeVariants: seq<PipeVariant>
    const birdStart: (int, int)
    const groundY: int
    /** `pygame.mask.from_surface` of each bird sprite. */
    const maskOf: Sprite -> Mask
    const bird: Bird
    const sky: ScrollingLayer
    const layers: seq<ScrollingLayer>
    const ground: ScrollingLayer
    var state: GameState
    var pipeTimer: real
    var score: nat
    var bestScore: nat
    var pipes: seq<PipePair>
    var sfx: seq<Sfx>

    /** The parts are wired as the constructor wires them: distinct
        background bands, at least one pipe variant, the bird's start at a
        quarter of the width and half the height, the ground line at the
        top of the ground band. */
    ghost predicate Assembled()
      reads bird
    {
      bird.Valid()
      && sky != ground && sky !in layers && ground !in layers && Distinct(layers)
      && 0 < |pipeVariants|
      && birdStart == (SCREEN_WIDTH / 4, SCREEN_HEIGHT / 2)
      && groundY == SCREEN_HEIGHT - ground.height
    }

    /** The parts are assembled and valid, and the bird is in its column. */
    ghost predicate SceneValid()
      reads bird, sky, layers, ground
    {
      Assembled()
      && sky.Valid() && ground.Valid() && (forall k :: 0 <= k < |layers| ==> layers[k].Valid())
      && bird.rect.CenterX() == birdStart.0
    }

    /** Between calls: the scene is valid, the best score is at least the
        score, and the live pairs are distinct and never sway. */
    ghost predicate Valid()
      reads this, bird, sky, layers, ground
    {
      SceneValid()
      && score <= bestScore
      && Distinct(pipes)
      && App.SwayAll(pipes, 0, 0.0)
    }

    /** The random draw fits `spawn_pipe`'s range and the variant list. */
    predicate DrawFits(draw: App.SpawnDraw)
    {
      MARGIN <= draw.gapY <= groundY - MARGIN
      && draw.bottomPick < |pipeVariants| && draw.topPick < |pipeVariants|
    }

    /** `FluppyGame(screen, asset_root)`, with the loaded bands, bird frames
        and pipe variants given: a waiting round with no score, and the bird
        placed at its start. */
    constructor (birdFrames: seq<Surface>, deathFrame: Surface,
                 sky: ScrollingLayer, layers: seq<ScrollingLayer>, ground: ScrollingLayer,
                 pipeVariants: seq<PipeVariant>, maskOf: Sprite -> Mask)
      requires 0 < |birdFrames| && 0 < |pipeVariants|
      requires sky != ground && sky !in layers && ground !in layers && Distinct(layers)
      requires sky.Valid() && ground.Valid() && forall k :: 0 <= k < |layers| ==> layers[k].Valid()
      ensures Valid()
      ensures this.sky == sky && this.layers == layers && this.ground == ground
      ensures this.pipeVariants == pipeVariants && this.maskOf == maskOf
      ensures fresh(bird) && bird.frames == birdFrames && bird.deathFrame == deathFrame
      ensures state == Ready && score == 0 && bestScore == 0 && pipeTimer == 0.0 && pipes == [] && sfx == []
      ensures bird.AtStart(birdStart)
    {
      this.sky := sky;
      this.layers := layers;
      this.ground := ground;
      this.pipeVariants := pipeVariants;
      this.maskOf := maskOf;
      state := Ready;
      pipeTimer := 0.0;
      score := 0;
      bestScore := 0;
      var start := (SCREEN_WIDTH / 4, SCREEN_HEIGHT / 2);
      var b := new Bird(birdFrames, deathFrame, start);
      b.Reset(start);
      bird := b;
      birdStart := start;
      groundY := SCREEN_HEIGHT - ground.height;
      pipes := [];
      sfx := [];
    }

    /** `reset()`: a new round on the waiting screen; the best score stays. */
    method Reset()
      requires Assembled()
      modifies this, bird, sky, layers, ground
      ensures Valid()
      ensures state == Ready && score == 0 && pipeTimer == 0.0 && pipes == []
      ensures bestScore == old(bestScore) && sfx == old(sfx)
      ensures bird.AtStart(birdStart) && sky.AtRest() && ground.AtRest()
      ensures forall k :: 0 <= k < |layers| ==> layers[k].AtRest()
    {
      state := Ready;
      score := 0;
      pipeTimer := 0.0;
      pipes := [];
      bird.Reset(birdStart);
      ResetAll(layers);
      ground.Reset();
      sky.Reset();
    }

    /** The state of a pair `spawn_pipe` builds from `draw`: at SPAWN_X, not
        passed, sway phase 0, the lower half's top and the upper half's
        bottom PIPE_GAP apart around the drawn centre. */
    function SpawnMotion(draw: App.SpawnDraw): PipeMotion
      requires DrawFits(draw)
    {
      var lower := pipeVariants[draw.bottomPick];
      var upper := pipeVariants[draw.topPick];
      PipeMotion(SPAWN_X as real, 0.0,
                 Rect(0, 0, upper.width, upper.height).WithMidBottom(SPAWN_X, GapEdges(draw.gapY, PIPE_GAP).1),
                 Rect(0, 0, lower.width, lower.height).WithMidTop(SPAWN_X, GapEdges(draw.gapY, PIPE_GAP).0),
                 false)
    }

    /** `p` is the pair `spawn_pipe` builds from `draw`: the drawn variants
        (the upper one flipped), the drawn centre, no sway, and the spawn
        state. */
    predicate SpawnedFrom(p: PipePair, draw: App.SpawnDraw)
      reads p
      requires DrawFits(draw)
    {
      p.Now() == SpawnMotion(draw) && BuiltFrom(p, draw)
    }

    /** The parts of a pair `spawn_pipe` fixes for good: the drawn centre,
        no sway and the drawn variants' masks. */
    predicate BuiltFrom(p: PipePair, draw: App.SpawnDraw)
      requires DrawFits(draw)
    {
      p.baseGapCenter == draw.gapY && p.swayAmplitude == 0 && p.swaySpeed == 0.0
      && p.bottomMask == pipeVariants[draw.bottomPick].mask
      && p.topMask == FlipVertical(pipeVariants[draw.topPick].mask)
    }

    /** `spawn_pipe()`: a new pair at SPAWN_X around the drawn centre,
        appended to the live list. */
    method SpawnPipe(draw: App.SpawnDraw)
      requires Valid() && DrawFits(draw)
      modifies this`pipes
      ensures Valid()
      ensures |pipes| == |old(pipes)| + 1 && pipes[..|old(pipes)|] == old(pipes)
      ensures fresh(pipes[|old(pipes)|]) && SpawnedFrom(pipes[|old(pipes)|], draw)
      ensures Snapshots(pipes) == old(Snapshots(pipes)) + [SpawnMotion(draw)]
    {
      var pipe := new PipePair(pipeVariants, SPAWN_X, draw.gapY, PIPE_GAP, 0, 0.0, draw.bottomPick, draw.topPick);
      pipes := pipes + [pipe];
      assert forall p :: p in pipes ==> p in old(pipes) || p == pipe;
      assert pipes[..|pipes| - 1] == old(pipes);
    }

    /** The score, the best score, the spawn timer and the live pairs are as
        they were. */
    twostate predicate RoundKept()
      reads this, pipes
    {
      score == old(score) && bestScore == old(bestScore) && pipeTimer == old(pipeTimer)
      && pipes == old(pipes) && forall p :: p in pipes ==> unchanged(p)
    }

    /** `_on_flap_request()`: start the round, flap, or start over. */
    method OnFlapRequest()
      requires Valid()
      modifies this, bird, sky, layers, ground
      ensures Valid() && Move(old(state), state)
      ensures old(state) == Ready ==>
        state == Playing && bird.Flapped() && sfx == old(sfx) + [Swooshing] && RoundKept()
      ensures old(state) == Playing ==>
        state == Playing && bird.Flapped() && sfx == old(sfx) + [Wing] && RoundKept()
      ensures old(state) == GameOver ==>
        state == Ready && score == 0 && bestScore == old(bestScore) && pipeTimer == 0.0 && pipes == []
        && sfx == old(sfx) && bird.AtStart(birdStart)
        && sky.AtRest() && ground.AtRest() && forall k :: 0 <= k < |layers| ==> layers[k].AtRest()
    {
      if state == Ready {
        state := Playing;
        bird.Flap();
        sfx := sfx + [Swooshing];
      } else if state == Playing {
        bird.Flap();
        sfx := sfx + [Wing];
      } else if state == GameOver {
        Reset();
      }
    }

    /** The layers and the ground moved one tick; the sky did not move. */
    twostate predicate BackgroundScrolled(dt: real)
      reads this, sky, layers, ground
      requires old(ground.Valid()) && forall k :: 0 <= k < |layers| ==> old(layers[k].Valid())
    {
      sky.positions == old(sky.positions)
      && ground.positions == ground.Next(old(ground.positions), dt)
      && forall k :: 0 <= k < |layers| ==>
        old(layers[k].Valid()) && layers[k].positions == layers[k].Next(old(layers[k].positions), dt)
    }

    /** `_scroll_background(dt)`: every layer, then the ground. */
    method ScrollBackground(dt: real)
      requires Valid()
      modifies layers, ground
      ensures Valid() && BackgroundScrolled(dt)
    {
      UpdateAll(layers, dt);
      ground.Update(dt);
    }

    /** What this frame's pipe pass reads, `dt` given. */
    function TickOf(dt: real): App.Tick
      reads bird
    {
      App.Tick(dt, PIPE_SPEED, PIPE_GAP, Level, bird.rect.CenterX())
    }

    /** The same read from the constants: `Valid` keeps the bird at its
        starting column, so this is the pace of every pass between calls. */
    function Pace(dt: real): (t: App.Tick)
      ensures t.dt == dt && t.birdX == birdStart.0
    {
      App.Tick(dt, PIPE_SPEED, PIPE_GAP, Level, birdStart.0)
    }

    /** The score, the best score and the sound log, as a value. */
    function Counters(): App.Tally
      reads this
    {
      App.Tally(score, bestScore, sfx)
    }

    /** The pair's own part of one pass of `_update_pipes`' loop: it moves,
        and its `passed` latch goes up when it is still on screen and its
        upper half's centre is now left of the bird's; `scored` says that
        it went up. `orig` is the list the loop walks and `i` the pair's
        position in it. */
    method StepPipe(pipe: PipePair, dt: real, ghost orig: seq<PipePair>, ghost i: nat) returns (scored: bool)
      requires Distinct(orig) && i < |orig| && pipe == orig[i]
      modifies pipe
      ensures Snapshots(orig) == old(Snapshots(orig))[i := pipe.Now()]
      ensures App.Stepped(pipe, old(Snapshots(orig))[i], pipe.Now(), TickOf(dt))
      ensures scored <==> !old(Snapshots(orig))[i].passed && pipe.passed
      ensures scored ==> !pipe.IsOffscreen()
    {
      ghost var pre := Snapshots(orig);
      ghost var t := TickOf(dt);
      SnapshotsMeans(orig);
      OthersDiffer(orig, i);
      pipe.Update(dt, PIPE_SPEED, PIPE_GAP, Level);
      ghost var moved := pipe.Now();
      assert pipe.Moves(pre[i], moved, t.dt, t.pipeSpeed, t.pipeGap, t.sine);
      scored := !pipe.IsOffscreen() && !pipe.passed && pipe.topRect.CenterX() < bird.rect.CenterX();
      if scored {
        pipe.passed := true;
      }
      ghost var n := pipe.Now();
      assert n == moved.(passed := pipe.passed);
      assert pipe.Moves(pre[i], n, t.dt, t.pipeSpeed, t.pipeGap, t.sine);
      assert App.Stepped(pipe, pre[i], n, t);
      SnapshotsMeans(orig);
      assert Snapshots(orig) == pre[i := pipe.Now()];
    }

    /** The rest of one pass of `_update_pipes`' loop, after the pair
        stepped: a pair now off screen is removed from the live list (the
        first occurrence, as `list.remove` does); otherwise a pair whose
        latch went up adds one to the score, lifts the best score with it,
        and asks for a point cue. */
    method SettlePipe(pipe: PipePair, scored: bool)
      requires pipe.IsOffscreen() ==> pipe in pipes
      modifies this`pipes, this`score, this`bestScore, this`sfx
      ensures pipes == if pipe.IsOffscreen() then RemoveFirst(old(pipes), pipe) else old(pipes)
      ensures Counters() == if !pipe.IsOffscreen() && scored then App.Scored(old(Counters())) else old(Counters())
    {
      if pipe.IsOffscreen() {
        pipes := RemoveFirst(pipes, pipe);
      } else if scored {
        score := score + 1;
        if score > bestScore {
          bestScore := score;
        }
        sfx := sfx + [Point];
      }
    }

    /** One pass of `_update_pipes`' loop, over the pair at position `i` of
        `orig`, whose states were `cur`. No other pair changes. */
    method UpdatePipe(pipe: PipePair, dt: real, ghost orig: seq<PipePair>, ghost i: nat, ghost cur: seq<PipeMotion>)
      requires Distinct(orig) && i < |orig| && pipe == orig[i] && pipe in pipes && Snapshots(orig) == cur
      modifies pipe, this`pipes, this`score, this`bestScore, this`sfx
      ensures Snapshots(orig) == cur[i := pipe.Now()] && bird.rect == old(bird.rect)
      ensures App.Stepped(pipe, cur[i], pipe.Now(), TickOf(dt))
      ensures Offscreen(pipe.Now()) ==> pipes == RemoveFirst(old(pipes), pipe)
      ensures !Offscreen(pipe.Now()) ==> pipes == old(pipes)
      ensures Counters() == if !cur[i].passed && pipe.passed then App.Scored(old(Counters())) else old(Counters())
    {
      var scored := StepPipe(pipe, dt, orig, i);
      SettlePipe(pipe, scored);
    }

    /** One pass of the loop of `_update_pipes(dt)` keeps its account: the
        pair at position `i` of `orig` steps from its state in `cur`, and
        the live list and the counters follow as `Walk` says. */
    method WalkPipe(dt: real, orig: seq<PipePair>, i: nat, ghost snaps: seq<PipeMotion>, ghost cur: seq<PipeMotion>,
                    ghost t: App.Tick, ghost start: App.Tally)
      requires Distinct(orig) && i < |orig| && t == TickOf(dt)
      requires Snapshots(orig) == cur && App.Walk(orig, snaps, cur, i, t, pipes, Counters(), start)
      modifies orig[i], this`pipes, this`score, this`bestScore, this`sfx
      ensures t == TickOf(dt) && Snapshots(orig) == cur[i := orig[i].Now()]
      ensures App.Walk(orig, snaps, cur[i := orig[i].Now()], i + 1, t, pipes, Counters(), start)
    {
      ghost var live := pipes;
      ghost var now := Counters();
      ListStep(orig, OffFlags(cur[..i]), i, false);
      UpdatePipe(orig[i], dt, orig, i, cur);
      App.PassStep(orig, snaps, cur, i, t, live, now, start, orig[i].Now(), pipes, Counters());
    }

    /** The loop of `_update_pipes(dt)` over a copy of the live list. */
    method UpdatePipeList(dt: real)
      requires Distinct(pipes) && score <= bestScore
      modifies this`pipes, this`score, this`bestScore, this`sfx, pipes
      ensures App.Walk(old(pipes), old(Snapshots(pipes)), Snapshots(old(pipes)), |old(pipes)|, TickOf(dt),
                   pipes, Counters(), old(Counters()))
    {
      var orig := pipes;
      ghost var snaps := Snapshots(orig);
      ghost var cur := snaps;
      ghost var start := Counters();
      ghost var t := TickOf(dt);
      for i := 0 to |orig|
        invariant t == TickOf(dt)
        invariant Snapshots(orig) == cur && App.Walk(orig, snaps, cur, i, t, pipes, Counters(), start)
      {
        WalkPipe(dt, orig, i, snaps, cur, t, start);
        cur := cur[i := orig[i].Now()];
      }
    }

    /** `_update_pipes(dt)`: every pair of the old live list stepped from
        its state in `before` to its state in `after`; the live list is the
        old one without the pairs now off screen; the score grew by the
        `gained` latches that went up, with a point cue for each. */
    method UpdatePipes(dt: real) returns (ghost before: seq<PipeMotion>, ghost after: seq<PipeMotion>, ghost gained: nat)
      requires Valid()
      modifies this`pipes, this`score, this`bestScore, this`sfx, pipes
      ensures Valid()
      ensures before == old(Snapshots(pipes)) && after == Snapshots(old(pipes))
      ensures App.PassOver(old(pipes), Pace(dt), before, after, gained, pipes)
      ensures pipes == Surviving(old(pipes))
      ensures forall p :: p in pipes <==> p in old(pipes) && !p.IsOffscreen()
      ensures score == old(score) + gained && bestScore == App.MaxNat(old(bestScore), score)
      ensures sfx == old(sfx) + App.Points(gained)
    {
      var orig := pipes;
      before := Snapshots(pipes);
      UpdatePipeList(dt);
      after := Snapshots(orig);
      assert TickOf(dt) == Pace(dt);
      gained := Flips(PassedOf(before), PassedOf(after));
      App.PassDone(orig, before, Pace(dt), pipes, Counters(), old(Counters()), 0, 0.0);
    }

    /** The parts of the game `_check_collisions()` may change. */
    function CheckView(): App.Outcome
      reads this, bird
    {
      App.Outcome(bird.rect, bird.velocity, bird.positionY, state, sfx)
    }

    /** `_trigger_game_over(ground_hit)`. */
    method TriggerGameOver(groundHit: bool)
      modifies this`state, this`sfx
      ensures state == GameOver && sfx == old(sfx) + App.GameOverCues(groundHit)
    {
      state := GameOver;
      sfx := sfx + [Hit];
      if groundHit {
        sfx := sfx + [Die];
      }
    }

    /** The ceiling check of `_check_collisions()`: a bird at or above the
        top is clamped there and stopped, and the round goes on. */
    method ClampAtCeiling()
      requires Valid()
      modifies bird
      ensures Valid() && bird.PoseKept()
      ensures var r := old(bird.rect);
        if r.Top() <= 0 then
          bird.rect == r.WithTop(0) && bird.velocity == 0.0 && bird.positionY == bird.rect.CenterY() as real
        else
          bird.rect == r && bird.velocity == old(bird.velocity) && bird.positionY == old(bird.positionY)
    {
      if bird.rect.Top() <= 0 {
        bird.rect := bird.rect.WithTop(0);
        bird.velocity := 0.0;
        bird.positionY := bird.rect.CenterY() as real;
      }
    }

    /** The rest of `_check_collisions()` after the ceiling check, with
        `birdMask` the mask of the bird's sprite: the ground stops the bird
        and ends the round with a death cry; otherwise the round ends when
        some live pair shares an opaque pixel with the bird. */
    method CheckGroundAndPipes(birdMask: Mask)
      requires Valid()
      modifies this`state, this`sfx, bird
      ensures Valid() && bird.PoseKept() && bird.velocity == old(bird.velocity)
      ensures var r := old(bird.rect);
        if r.Bottom() >= groundY then
          bird.rect == r.WithBottom(groundY) && bird.positionY == bird.rect.CenterY() as real
          && state == GameOver && sfx == old(sfx) + [Hit, Die]
        else
          bird.rect == r && bird.positionY == old(bird.positionY)
          && (AnyCollides(pipes, birdMask, r) ==> state == GameOver && sfx == old(sfx) + [Hit])
          && (!AnyCollides(pipes, birdMask, r) ==> state == old(state) && sfx == old(sfx))
    {
      var birdRect := bird.rect;
      if birdRect.Bottom() >= groundY {
        bird.rect := birdRect.WithBottom(groundY);
        bird.positionY := bird.rect.CenterY() as real;
        TriggerGameOver(true);
        return;
      }
      for i := 0 to |pipes|
        invariant forall k :: 0 <= k < i ==> !pipes[k].CollidesWith(birdMask, birdRect)
      {
        if pipes[i].CollidesWith(birdMask, birdRect) {
          TriggerGameOver(false);
          return;
        }
      }
    }

    /** `_check_collisions()`: the ceiling only clamps the bird; then the
        ground stops the bird and ends the round with a death cry, or else
        the round ends when some live pair shares an opaque pixel with the
        bird's sprite at its clamped place. */
    method CheckCollisions() returns (ghost found: App.Outcome, ghost hit: bool)
      requires Valid()
      modifies this`state, this`sfx, bird
      ensures Valid() && bird.PoseKept()
      ensures found == old(CheckView()) && hit == AnyCollides(pipes, maskOf(bird.image), Clamped(found).rect)
      ensures CheckView() == CheckOutcome(found, hit, groundY)
      ensures (state == old(state) && sfx == old(sfx))
        || (state == GameOver && (sfx == old(sfx) + [Hit] || sfx == old(sfx) + [Hit, Die]))
      ensures var r := old(bird.rect);
        var c := if r.Top() <= 0 then r.WithTop(0) else r;
        (r.Top() <= 0 ==> bird.velocity == 0.0)
        && (r.Top() > 0 ==> bird.velocity == old(bird.velocity))
        && if c.Bottom() >= groundY then
             bird.rect == c.WithBottom(groundY) && bird.positionY == bird.rect.CenterY() as real
             && state == GameOver && sfx == old(sfx) + [Hit, Die]
           else
             bird.rect == c
             && (r.Top() <= 0 ==> bird.positionY == c.CenterY() as real)
             && (r.Top() > 0 ==> bird.positionY == old(bird.positionY))
             && (AnyCollides(pipes, maskOf(old(bird.image)), c) ==> state == GameOver && sfx == old(sfx) + [Hit])
             && (!AnyCollides(pipes, maskOf(old(bird.image)), c) ==> state == old(state) && sfx == old(sfx))
    {
      found := CheckView();
      hit := AnyCollides(pipes, maskOf(bird.image), Clamped(found).rect);
      var birdMask := maskOf(bird.image);
      ClampAtCeiling();
      CheckGroundAndPipes(birdMask);
    }

    /** This tick's timer reaches the spawn interval, so a pair is drawn. */
    predicate SpawnDue(dt: real)
      reads this
    {
      (pipeTimer + dt) * 1000.0 >= PIPE_SPAWN_MS as real
    }

    /** The spawn timer of `update(dt)` while playing: a new pair when the
        timer reaches PIPE_SPAWN_MS, which restarts it. */
    method TickSpawnTimer(dt: real, draw: App.SpawnDraw)
      requires Valid() && (SpawnDue(dt) ==> DrawFits(draw))
      modifies this`pipeTimer, this`pipes
      ensures Valid()
      ensures var t := old(pipeTimer) + dt;
        (t * 1000.0 >= PIPE_SPAWN_MS as real ==>
           pipeTimer == 0.0 && |pipes| == |old(pipes)| + 1 && pipes[..|old(pipes)|] == old(pipes)
           && fresh(pipes[|old(pipes)|]) && SpawnedFrom(pipes[|old(pipes)|], draw))
        && (t * 1000.0 < PIPE_SPAWN_MS as real ==> pipeTimer == t && pipes == old(pipes))
      ensures forall p :: p in pipes ==> p in old(pipes) || fresh(p)
      ensures forall p :: p in old(pipes) ==> p in pipes
      ensures Snapshots(pipes) == old(Snapshots(pipes)) + if old(SpawnDue(dt)) then [SpawnMotion(draw)] else []
      ensures CheckView() == old(CheckView())
    {
      pipeTimer := pipeTimer + dt;
      if pipeTimer * 1000.0 >= PIPE_SPAWN_MS as real {
        pipeTimer := 0.0;
        SpawnPipe(draw);
        assert forall p :: p in pipes ==> p in old(pipes) || p == pipes[|old(pipes)|];
      } else {
        assert old(Snapshots(pipes)) + [] == old(Snapshots(pipes));
      }
    }

    /** The bird and the background of a playing tick. */
    method MoveScene(dt: real)
      requires Valid()
      modifies bird, layers, ground
      ensures Valid() && bird.Flew(dt) && BackgroundScrolled(dt)
      ensures Snapshots(pipes) == old(Snapshots(pipes))
    {
      bird.Update(dt);
      ScrollBackground(dt);
    }

    /** The bird, the background and the pairs of a playing tick. */
    method StepWorld(dt: real) returns (ghost before: seq<PipeMotion>, ghost after: seq<PipeMotion>, ghost gained: nat)
      requires Valid()
      modifies this`pipes, this`score, this`bestScore, this`sfx, bird, layers, ground, pipes
      ensures Valid() && bird.Flew(dt) && BackgroundScrolled(dt)
      ensures before == old(Snapshots(pipes)) && after == Snapshots(old(pipes))
      ensures App.PassOver(old(pipes), Pace(dt), before, after, gained, pipes)
      ensures pipes == Surviving(old(pipes))
      ensures forall p :: p in pipes <==> p in old(pipes) && !p.IsOffscreen()
      ensures score == old(score) + gained && bestScore == App.MaxNat(old(bestScore), score)
      ensures sfx == old(sfx) + App.Points(gained)
    {
      MoveScene(dt);
      before, after, gained := UpdatePipes(dt);
    }

    /** How the collision checks of a playing tick leave the game, the tick
        having begun with the bird, phase and log of `start` and its pipe
        pass having scored `gained`: the checks found the bird as `found`,
        where its flight put it; `hit` says whether a live pair shares an
        opaque pixel with the bird once clamped at the ceiling; and the
        bird, phase and log are the outcome of the checks. */
    ghost predicate Checked(start: App.Outcome, dt: real, gained: nat, found: App.Outcome, hit: bool)
      reads this, bird, pipes
    {
      found == App.Flown(start, dt, gained)
      && hit == AnyCollides(pipes, maskOf(bird.image), Clamped(found).rect)
      && CheckView() == CheckOutcome(found, hit, groundY)
    }

    /** A playing tick after the spawn timer: the bird, the background, the
        pairs, then the collision checks, which find the bird as `found`:
        where its flight put it, and the phase and cue log as the pipe pass
        left them. */
    method AdvancePlay(dt: real)
      returns (ghost before: seq<PipeMotion>, ghost after: seq<PipeMotion>, ghost gained: nat,
               ghost found: App.Outcome, ghost hit: bool)
      requires Valid() && state == Playing
      modifies this`pipes, this`score, this`bestScore, this`sfx, this`state, bird, layers, ground, pipes
      ensures Valid() && bird.Animated(dt) && BackgroundScrolled(dt)
      ensures state == Playing || state == GameOver
      ensures before == old(Snapshots(pipes))
      ensures App.PassOver(old(pipes), Pace(dt), before, after, gained, pipes)
      ensures forall p :: p in pipes <==> p in old(pipes) && !p.IsOffscreen()
      ensures score == old(score) + gained && bestScore == App.MaxNat(old(bestScore), score)
      ensures Checked(old(CheckView()), dt, gained, found, hit)
    {
      before, after, gained := StepWorld(dt);
      found, hit := CheckCollisions();
    }

    /** The playing branch of `update(dt)`: the spawn timer, the bird, the
        background, the pairs, then the collision checks. `walked` is the
        live list the pipe pass walks: the old one, with the pair drawn
        from `draw` appended when the spawn was due. The pass stepped those
        pairs from `before` to `after`, scoring `gained`; the collision
        checks found the bird as `found` and the pairs' masks as `hit`
        says. */
    method UpdatePlay(dt: real, draw: App.SpawnDraw)
      returns (ghost walked: seq<PipePair>, ghost before: seq<PipeMotion>, ghost after: seq<PipeMotion>,
               ghost gained: nat, ghost found: App.Outcome, ghost hit: bool)
      requires Valid() && state == Playing && (SpawnDue(dt) ==> DrawFits(draw))
      modifies this, bird, layers, ground, pipes
      ensures Valid() && bird.Animated(dt) && BackgroundScrolled(dt)
      ensures state == Playing || state == GameOver
      ensures var t := old(pipeTimer) + dt;
        (t * 1000.0 >= PIPE_SPAWN_MS as real ==> pipeTimer == 0.0)
        && (t * 1000.0 < PIPE_SPAWN_MS as real ==> pipeTimer == t)
      ensures old(SpawnDue(dt)) ==>
        |walked| == |old(pipes)| + 1 && walked[..|old(pipes)|] == old(pipes)
        && fresh(walked[|old(pipes)|]) && BuiltFrom(walked[|old(pipes)|], draw)
      ensures !old(SpawnDue(dt)) ==> walked == old(pipes)
      ensures App.PassOver(walked, Pace(dt), before, after, gained, pipes)
      ensures before == old(Snapshots(pipes)) + if old(SpawnDue(dt)) then [SpawnMotion(draw)] else []
      ensures forall p :: p in pipes ==> (p in old(pipes) || fresh(p)) && !p.IsOffscreen()
      ensures forall p :: p in old(pipes) && !p.IsOffscreen() ==> p in pipes
      ensures score == old(score) + gained && bestScore == App.MaxNat(old(bestScore), score)
      ensures Checked(old(CheckView()), dt, gained, found, hit)
    {
      TickSpawnTimer(dt, draw);
      walked := pipes;
      assert forall k :: 0 <= k < |pipes| ==> pipes[k] in old(pipes) || fresh(pipes[k]);
      before, after, gained, found, hit := AdvancePlay(dt);
    }

    /** `update(dt)`: float on the waiting screen, play, or fall after a
        crash. In play, the outputs are those of the playing branch: the
        round ends exactly when the checks find the clamped bird on the
        ground or in a pair. */
    method Update(dt: real, draw: App.SpawnDraw)
      returns (ghost walked: seq<PipePair>, ghost before: seq<PipeMotion>, ghost after: seq<PipeMotion>,
               ghost gained: nat, ghost found: App.Outcome, ghost hit: bool)
      requires Valid() && (state == Playing && SpawnDue(dt) ==> DrawFits(draw))
      modifies this, bird, layers, ground, pipes
      ensures Valid() && Move(old(state), state)
      ensures old(state) == Ready ==>
        state == Ready && bird.Floated(dt, birdStart.1) && BackgroundScrolled(dt) && RoundKept() && sfx == old(sfx)
      ensures old(state) == GameOver ==>
        state == GameOver && bird.Fell(dt) && BackgroundScrolled(dt) && RoundKept() && sfx == old(sfx)
      ensures old(state) == Playing ==> old(score) <= score && bestScore == App.MaxNat(old(bestScore), score)
      ensures old(state) == Playing ==>
        (old(SpawnDue(dt)) ==> |walked| == |old(pipes)| + 1 && walked[..|old(pipes)|] == old(pipes))
        && (!old(SpawnDue(dt)) ==> walked == old(pipes))
        && App.PassOver(walked, Pace(dt), before, after, gained, pipes) && score == old(score) + gained
        && Checked(old(CheckView()), dt, gained, found, hit)
      ensures old(state) == Playing ==>
        before == old(Snapshots(pipes)) + (if old(SpawnDue(dt)) then [SpawnMotion(draw)] else [])
        && (forall p :: p in pipes ==> (p in old(pipes) || fresh(p)) && !p.IsOffscreen())
        && (forall p :: p in old(pipes) && !p.IsOffscreen() ==> p in pipes)
    {
      walked, before, after, gained, found, hit := pipes, [], [], 0, CheckView(), false;
      if state == Ready {
        bird.UpdateReady(dt, birdStart.1);
        ScrollBackground(dt);
        return;
      }
      if state == Playing {
        walked, before, after, gained, found, hit := UpdatePlay(dt, draw);
        return;
      }
      if state == GameOver {
        ScrollBackground(dt);
        bird.UpdateFalling(dt);
      }
    }
  }
}
