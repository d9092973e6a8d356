// The game controller of fluppy/app.py. `FluppyGame` keeps the Python
// object's fields and updates them in place. Loaded assets are parameters:
// image sizes, pipe variants with their masks, and the mask of each bird
// sprite. `math.sin` is the parameter `sine`, and each `random` draw is
// passed in as a `SpawnDraw`. The sounds the game asks for are appended to
// the `sfx` log.
module App {
  import opened Geometry
  import opened Settings
  import opened Difficulty
  import opened Entities
  import opened GameStates

  function MaxNat(a: nat, b: nat): nat { if a >= b then a else b }

  /** `n` point cues in a row. */
  function Points(n: nat): (cues: seq<Sfx>)
    ensures |cues| == n && forall i :: 0 <= i < n ==> cues[i] == Point
  {
    if n == 0 then [] else Points(n - 1) + [Point]
  }

  /** Point cues for two runs of scoring, one after the other. */
  lemma {:induction false} PointsAdd(log: seq<Sfx>, a: nat, b: nat)
    ensures log + Points(a) + Points(b) == log + Points(a + b)
  {
    if b != 0 {
      PointsAdd(log, a, b - 1);
    }
  }

  /** The cues of a game over: a hit, then a death cry if it was the ground. */
  function GameOverCues(groundHit: bool): seq<Sfx>
  {
    if groundHit then [Hit, Die] else [Hit]
  }

  // --------------------------------------------------------- collisions --

  /** What `_check_collisions()` may change: the bird's rectangle, velocity
      and height, the phase, and the cue log. */
  datatype Outcome = Outcome(rect: Rect, velocity: real, positionY: real, state: GameState, cues: seq<Sfx>)

  /** Where one flight tick takes the bird of `start`, a round in play:
      capped gravity, then the height and the rectangle follow; the phase
      stays, and the pipe pass adds `gained` point cues to the log. */
  function Flown(start: Outcome, dt: real, gained: nat): Outcome
  {
    var v := Fall(start.velocity, dt);
    var y := Drop(start.positionY, v, dt);
    Outcome(start.rect.WithCenterY(Trunc(y)), v, y, start.state, start.cues + Points(gained))
  }

  /** The outcome of `_check_collisions()` for a bird at `r`, at height `y`
      with velocity `v`, in phase `s` with cue log `cues`, where `hit` says
      whether some live pair shares an opaque pixel with it: at or above the
      ceiling the bird is clamped to the top and stopped, with a hit; else
      at or below the ground line it is clamped onto it, with a hit and a
      death cry; else a pipe hit ends the round with a hit; otherwise
      nothing changes. */
  function CheckOutcome(r: Rect, v: real, y: real, hit: bool, groundY: int, s: GameState, cues: seq<Sfx>): Outcome
  {
    if r.Top() <= 0 then
      var c := r.WithTop(0);
      Outcome(c, 0.0, c.CenterY() as real, GameOver, cues + GameOverCues(false))
    else if r.Bottom() >= groundY then
      var c := r.WithBottom(groundY);
      Outcome(c, v, c.CenterY() as real, GameOver, cues + GameOverCues(true))
    else if hit then
      Outcome(r, v, y, GameOver, cues + GameOverCues(false))
    else
      Outcome(r, v, y, s, cues)
  }

  /** The checks end the round exactly when the bird touches the ceiling or
      the ground or a pipe (or it was already over); a round that goes on
      leaves the bird strictly between the ceiling and the ground line, and
      a round that ends adds a hit cue, followed by a death cry exactly when
      the bird met the ground. */
  lemma CheckOutcomeEndsRound(r: Rect, v: real, y: real, hit: bool, groundY: int, s: GameState, cues: seq<Sfx>)
    ensures var o := CheckOutcome(r, v, y, hit, groundY, s, cues);
      (o.state == GameOver <==> r.Top() <= 0 || r.Bottom() >= groundY || hit || s == GameOver)
      && (o.state != GameOver ==> o.rect == r && 0 < r.Top() && r.Bottom() < groundY && o.cues == cues)
      && (r.Top() <= 0 || r.Bottom() >= groundY || hit ==>
            o.cues == cues + GameOverCues(0 < r.Top() && r.Bottom() >= groundY))
  { }

  // ----------------------------------------------------------- spawning --

  const TOP_MARGIN: int := 180
  /** New pairs appear 100 pixels right of the screen. */
  const SPAWN_X: int := SCREEN_WIDTH + 100

  /** The lowest gap centre `spawn_pipe` draws: `max(top_margin, gap // 2)`,
      the larger of the margin and half the gap. */
  function MinCenter(gap: int): (c: int)
    ensures TOP_MARGIN <= c && gap / 2 <= c
    ensures c == TOP_MARGIN || c == gap / 2
  {
    if TOP_MARGIN >= gap / 2 then TOP_MARGIN else gap / 2
  }

  /** The highest gap centre `spawn_pipe` draws: `ground_top - gap // 2`,
      the centre whose gap (when even) ends exactly at the ground line. */
  function MaxCenter(groundTop: int, gap: int): (c: int)
    ensures gap % 2 == 0 ==> GapEdges(c, gap).0 == groundTop
  {
    var c := groundTop - gap / 2;
    if gap % 2 == 0 then SpawnGapIsExact(c, gap); c else c
  }

  /** The outcomes of `random` for one spawn: the gap centre from
      `randint`, and the variant indices from the two `choice` calls. */
  datatype SpawnDraw = SpawnDraw(gapY: int, bottomPick: nat, topPick: nat)

  /** A gap centre drawn from the spawn range puts the whole gap between the
      top of the screen and the ground, with the centre at or below the top
      margin. */
  lemma SpawnedGapOnScreen(gapY: int, gap: int, groundTop: int)
    requires 0 <= gap && gap % 2 == 0
    requires MinCenter(gap) <= gapY <= MaxCenter(groundTop, gap)
    ensures TOP_MARGIN <= gapY
    ensures 0 <= GapEdges(gapY, gap).1
    ensures GapEdges(gapY, gap).0 <= groundTop
    ensures GapEdges(gapY, gap).0 - GapEdges(gapY, gap).1 == gap
  {
    SpawnGapIsExact(gapY, gap);
  }

  /** The margin bounds the centre, not the gap's upper edge: with the
      default gap of 260 the lowest centre, 180, leaves the upper edge only
      50 pixels below the top of the screen. */
  lemma MarginBoundsCenterOnly()
    ensures MinCenter(PIPE_GAP) == TOP_MARGIN
    ensures GapEdges(MinCenter(PIPE_GAP), PIPE_GAP).1 == 50 < TOP_MARGIN
  {
    SpawnGapIsExact(TOP_MARGIN, PIPE_GAP);
  }

  // -------------------------------------- calling the PipePair constructor --

  /** Why a Python call fails to bind its arguments. */
  datatype CallProblem =
    | UnexpectedKeyword(name: string)
    | MultipleValues(name: string)
    | TooManyPositional
    | MissingArgument

  /** The result of binding a call's arguments to a function's parameters. */
  datatype Binding = Bound | TypeError(problem: CallProblem)

  /** The parameters of `PipePair.__init__` after `self`, in order; the first
      four have no default. */
  const PIPE_PAIR_PARAMETERS: seq<string> := ["variants", "x", "gap_y", "gap", "sway_amplitude", "sway_speed"]
  const PIPE_PAIR_REQUIRED: nat := 4

  /** The first keyword argument that cannot be bound when the first
      `bound` parameters already took positional arguments, scanning the
      keywords in call order. */
  function KeywordProblem(params: seq<string>, bound: nat, keywords: seq<string>): (p: Option<CallProblem>)
    requires bound <= |params| && Distinct(params)
    ensures p.None? <==> forall i :: 0 <= i < |keywords| ==> keywords[i] in params[bound..]
    ensures p.Some? ==>
      (exists i :: 0 <= i < |keywords|
        && ((keywords[i] !in params && p.value == UnexpectedKeyword(keywords[i]))
            || (keywords[i] in params[..bound] && p.value == MultipleValues(keywords[i]))))
  {
    if keywords == [] then None
    else
      var k := keywords[0];
      assert params == params[..bound] + params[bound..];
      if k !in params then Some(UnexpectedKeyword(k))
      else if k in params[..bound] then Some(MultipleValues(k))
      else
        var rest := KeywordProblem(params, bound, keywords[1..]);
        assert forall i :: 0 < i < |keywords| ==> keywords[i] == keywords[1..][i - 1];
        rest
  }

  /** Some parameter in [from, required) got neither a positional nor a
      keyword argument. */
  predicate MissingRequired(params: seq<string>, from: nat, required: nat, keywords: seq<string>)
    requires required <= |params|
  {
    exists i :: from <= i < required && params[i] !in keywords
  }

  /** CPython's argument binding for a plain function (no `*args` or
      `**kwargs`) called with `positional` positional arguments and the
      given keywords: keywords are checked first, then the positional
      count, then the parameters still missing. */
  function Bind(params: seq<string>, required: nat, positional: nat, keywords: seq<string>): (b: Binding)
    requires required <= |params| && Distinct(params)
    ensures b == Bound <==>
      positional <= |params|
      && (forall i :: 0 <= i < |keywords| ==> keywords[i] in params[positional..])
      && (forall i :: positional <= i < required ==> params[i] in keywords)
  {
    var bound := if positional <= |params| then positional else |params|;
    var problem := KeywordProblem(params, bound, keywords);
    if problem.Some? then TypeError(problem.value)
    else if positional > |params| then TypeError(TooManyPositional)
    else if MissingRequired(params, positional, required, keywords) then TypeError(MissingArgument)
    else Bound
  }

  /** `spawn_pipe` as written passes six positional arguments (the last two
      are `min_center` and `max_center`) and then `sway_amplitude` and
      `sway_speed` by keyword again, so every spawn raises a TypeError. */
  lemma SpawnCallAsWrittenFails()
    ensures Bind(PIPE_PAIR_PARAMETERS, PIPE_PAIR_REQUIRED, 6, ["sway_amplitude", "sway_speed"])
      == TypeError(MultipleValues("sway_amplitude"))
  {
    assert "sway_amplitude" in PIPE_PAIR_PARAMETERS[..6] by {
      assert PIPE_PAIR_PARAMETERS[..6][4] == "sway_amplitude";
    }
  }

  /** Without the two stray positional arguments the call binds, with the
      sway taken from the keywords. */
  lemma SpawnCallCorrectedBinds()
    ensures Bind(PIPE_PAIR_PARAMETERS, PIPE_PAIR_REQUIRED, 4, ["sway_amplitude", "sway_speed"]) == Bound
  {
    assert PIPE_PAIR_PARAMETERS[4..] == ["sway_amplitude", "sway_speed"];
  }

  // ------------------------------------------------------ pipe updates --

  /** What one frame's pipe pass reads besides the pairs: the time step,
      the pipe speed and gap settings, `math.sin`, and the column of the
      bird's centre. */
  datatype Tick = Tick(dt: real, pipeSpeed: int, pipeGap: int, sine: real -> real, birdX: int)

  /** The score, the best score and the log of sound cues. */
  datatype Tally = Tally(score: nat, best: nat, cues: seq<Sfx>)

  /** What one pass of `_update_pipes`' loop does to pair `p`, whose state
      goes from `m` to `n`: it moves one tick, and its `passed` latch is
      set when it stays on screen with its upper half's centre left of the
      bird's centre. */
  predicate Stepped(p: PipePair, m: PipeMotion, n: PipeMotion, t: Tick)
  {
    p.Moves(m, n, t.dt, t.pipeSpeed, t.pipeGap, t.sine)
    && n.passed == (m.passed || (!Offscreen(n) && n.topRect.CenterX() < t.birdX))
  }

  /** Every pair of `ps` stepped from its state in `from` to its state in `to`. */
  predicate AllStepped(ps: seq<PipePair>, from: seq<PipeMotion>, to: seq<PipeMotion>, t: Tick)
    requires |ps| == |from| == |to|
  {
    ps == []
    || (var n := |ps| - 1;
        AllStepped(ps[..n], from[..n], to[..n], t) && Stepped(ps[n], from[n], to[n], t))
  }

  /** `AllStepped` holds exactly when each position stepped. */
  lemma {:induction false} AllSteppedMeans(ps: seq<PipePair>, from: seq<PipeMotion>, to: seq<PipeMotion>, t: Tick)
    requires |ps| == |from| == |to|
    ensures AllStepped(ps, from, to, t) <==> forall k :: 0 <= k < |ps| ==> Stepped(ps[k], from[k], to[k], t)
  {
    if ps != [] {
      var n := |ps| - 1;
      AllSteppedMeans(ps[..n], from[..n], to[..n], t);
      assert forall k :: 0 <= k < n ==> ps[..n][k] == ps[k] && from[..n][k] == from[k] && to[..n][k] == to[k];
    }
  }

  lemma AllSteppedSnoc(ps: seq<PipePair>, from: seq<PipeMotion>, to: seq<PipeMotion>, t: Tick,
                       p: PipePair, m: PipeMotion, n: PipeMotion)
    requires |ps| == |from| == |to|
    requires AllStepped(ps, from, to, t) && Stepped(p, m, n, t)
    ensures AllStepped(ps + [p], from + [m], to + [n], t)
  {
    assert (ps + [p])[..|ps|] == ps;
    assert (from + [m])[..|ps|] == from;
    assert (to + [n])[..|ps|] == to;
  }

  /** The counters after one pair scores: `_increment_score(1)`, then a
      point cue. */
  function Scored(c: Tally): Tally
  {
    Tally(c.score + 1, MaxNat(c.best, c.score + 1), c.cues + [Point])
  }

  /** Where `_update_pipes`' loop stands after `i` passes over `orig`, the
      copy of the live list it walks: the pairs were in the states `snaps`
      when the loop began and are in the states `cur` now; the live list
      `live` has lost the walked pairs now off screen; the counters went
      from `start` to `now` by one point per latch raised so far. */
  predicate Walk(orig: seq<PipePair>, snaps: seq<PipeMotion>, cur: seq<PipeMotion>, i: nat, t: Tick,
                 live: seq<PipePair>, now: Tally, start: Tally)
  {
    |snaps| == |orig| && |cur| == |orig| && i <= |orig| && cur[i..] == snaps[i..]
    && live == Kept(orig[..i], OffFlags(cur[..i])) + orig[i..]
    && AllStepped(orig[..i], snaps[..i], cur[..i], t)
    && now.score == start.score + Flips(PassedOf(snaps[..i]), PassedOf(cur[..i]))
    && now.best == MaxNat(start.best, now.score)
    && now.cues == start.cues + Points(now.score - start.score)
  }

  /** The sequence facts of one pass: after position `i` of `cur` takes
      the state `n`, the walked prefix grows by one position, the rest is
      still as the loop found it, and the flag lists and the flip count grow
      by that position's entry. */
  lemma SnocFacts(orig: seq<PipePair>, snaps: seq<PipeMotion>, cur: seq<PipeMotion>, i: nat, t: Tick, n: PipeMotion)
    requires |snaps| == |orig| && |cur| == |orig| && i < |orig| && cur[i..] == snaps[i..]
    requires AllStepped(orig[..i], snaps[..i], cur[..i], t)
    requires Stepped(orig[i], cur[i], n, t)
    ensures cur[i] == snaps[i]
    ensures cur[i := n][i + 1..] == snaps[i + 1..]
    ensures AllStepped(orig[..i + 1], snaps[..i + 1], cur[i := n][..i + 1], t)
    ensures OffFlags(cur[i := n][..i + 1]) == OffFlags(cur[..i]) + [Offscreen(n)]
    ensures Flips(PassedOf(snaps[..i + 1]), PassedOf(cur[i := n][..i + 1]))
      == Flips(PassedOf(snaps[..i]), PassedOf(cur[..i])) + if !snaps[i].passed && n.passed then 1 else 0
  {
    var next := cur[i := n];
    assert cur[i] == snaps[i] by { assert cur[i..][0] == snaps[i..][0]; }
    assert next[i + 1..] == snaps[i + 1..] by {
      assert next[i + 1..] == cur[i + 1..];
      assert cur[i + 1..] == cur[i..][1..] && snaps[i + 1..] == snaps[i..][1..];
    }
    assert next[..i + 1] == cur[..i] + [n];
    assert snaps[..i + 1] == snaps[..i] + [snaps[i]];
    assert orig[..i + 1] == orig[..i] + [orig[i]];
    AllSteppedSnoc(orig[..i], snaps[..i], cur[..i], t, orig[i], snaps[i], n);
    FlagsSnoc(cur[..i], n);
    FlagsSnoc(snaps[..i], snaps[i]);
    FlipsSnoc(PassedOf(snaps[..i]), PassedOf(cur[..i]), snaps[i].passed, n.passed);
  }

  /** One pass keeps the loop's account: when the pair at `i` steps to
      `n`, the live list becomes `live'` by dropping it if now off screen,
      and the counters become `now'` by scoring once if its latch went up. */
  lemma PassStep(orig: seq<PipePair>, snaps: seq<PipeMotion>, cur: seq<PipeMotion>, i: nat, t: Tick,
                 live: seq<PipePair>, now: Tally, start: Tally, n: PipeMotion, live': seq<PipePair>, now': Tally)
    requires Distinct(orig) && i < |orig|
    requires Walk(orig, snaps, cur, i, t, live, now, start)
    requires Stepped(orig[i], cur[i], n, t)
    requires Offscreen(n) ==> orig[i] in live && live' == RemoveFirst(live, orig[i])
    requires !Offscreen(n) ==> live' == live
    requires now' == if !cur[i].passed && n.passed then Scored(now) else now
    ensures Walk(orig, snaps, cur[i := n], i + 1, t, live', now', start)
  {
    var next := cur[i := n];
    SnocFacts(orig, snaps, cur, i, t, n);
    ListStep(orig, OffFlags(cur[..i]), i, Offscreen(n));
    assert live' == Kept(orig[..i + 1], OffFlags(next[..i + 1])) + orig[i + 1..];
    if !cur[i].passed && n.passed {
      var a := now.score - start.score;
      PointsAdd(start.cues, a, 1);
      assert Points(1) == [Point];
      assert now'.cues == start.cues + Points(a + 1);
    }
  }

  /** After the last pass the account covers the whole list. */
  lemma WalkDone(orig: seq<PipePair>, snaps: seq<PipeMotion>, cur: seq<PipeMotion>, t: Tick,
                 live: seq<PipePair>, now: Tally, start: Tally)
    requires Walk(orig, snaps, cur, |orig|, t, live, now, start)
    ensures live == Kept(orig, OffFlags(cur))
    ensures AllStepped(orig, snaps, cur, t)
    ensures now.score == start.score + Flips(PassedOf(snaps), PassedOf(cur))
  {
    assert orig[..|orig|] == orig && snaps[..|orig|] == snaps && cur[..|orig|] == cur;
    assert orig[|orig|..] == [];
  }

  /** Every pair of `ps` sways with these parameters. */
  predicate SwayAll(ps: seq<PipePair>, amplitude: int, speed: real)
  {
    forall p :: p in ps ==> p.swayAmplitude == amplitude && p.swaySpeed == speed
  }

  /** One `_update_pipes` pass over the list `orig`, as values: every pair
      stepped at pace `t` from its state in `before` to its state in
      `after`; the live list `live` keeps, in order, the pairs whose new
      state is on screen; `gained` latches went up. */
  predicate PassOver(orig: seq<PipePair>, t: Tick, before: seq<PipeMotion>, after: seq<PipeMotion>, gained: nat,
                     live: seq<PipePair>)
  {
    |before| == |orig| && |after| == |orig| && AllStepped(orig, before, after, t)
    && live == Kept(orig, OffFlags(after))
    && gained == Flips(PassedOf(before), PassedOf(after))
  }

  /** What a finished walk over `orig`, whose pairs are now in the states
      `Snapshots(orig)`, means for the live list: it is the on-screen filter
      of `orig`, so it holds exactly the pairs of `orig` not off screen,
      stays distinct and keeps their sway parameters. */
  lemma PassDone(orig: seq<PipePair>, snaps: seq<PipeMotion>, t: Tick, live: seq<PipePair>, now: Tally, start: Tally,
                 amplitude: int, speed: real)
    requires Distinct(orig) && SwayAll(orig, amplitude, speed)
    requires Walk(orig, snaps, Snapshots(orig), |orig|, t, live, now, start)
    ensures live == Surviving(orig) && Distinct(live) && SwayAll(live, amplitude, speed)
    ensures forall p :: p in live <==> p in orig && !p.IsOffscreen()
    ensures AllStepped(orig, snaps, Snapshots(orig), t)
    ensures now.score == start.score + Flips(PassedOf(snaps), PassedOf(Snapshots(orig)))
    ensures PassOver(orig, t, snaps, Snapshots(orig), Flips(PassedOf(snaps), PassedOf(Snapshots(orig))), live)
  {
    WalkDone(orig, snaps, Snapshots(orig), t, live, now, start);
    KeptIsSurviving(orig);
    SurvivingDistinct(orig);
    SurvivingIsFilter(orig);
  }

  // ---------------------------------------------------------- the game --

  class FluppyGame {
    /** The settings globals as `configure_for_difficulty` left them. */
    const cfg: Config
    const swayAmplitude: int
    const swaySpeed: real
    const pipeVariants: seq<PipeVariant>
    const birdStart: (int, int)
    const groundY: int
    /** `pygame.mask.from_surface` of each bird sprite. */
    const maskOf: Sprite -> Mask
    /** `math.sin`. */
    const sine: real -> real
    const bird: Bird
    const sky: ScrollingLayer
    const layers: seq<ScrollingLayer>
    const ground: ScrollingLayer
    var state: GameState
    var pipeTimer: real
    var score: nat
    var bestScore: nat
    var pipes: seq<PipePair>
    var sfx: seq<Sfx>

    /** The parts are wired as the constructor wires them: distinct
        background bands, at least one pipe variant, the bird's start at a
        quarter of the width and half the height, the ground line at the
        top of the ground band. */
    ghost predicate Assembled()
      reads bird
    {
      bird.Valid()
      && sky != ground && sky !in layers && ground !in layers && Distinct(layers)
      && 0 < |pipeVariants|
      && birdStart == (SCREEN_WIDTH / 4, SCREEN_HEIGHT / 2)
      && groundY == SCREEN_HEIGHT - ground.height
    }

    /** The parts are assembled and valid, and the bird is in its column. */
    ghost predicate SceneValid()
      reads bird, sky, layers, ground
    {
      Assembled()
      && sky.Valid() && ground.Valid() && (forall k :: 0 <= k < |layers| ==> layers[k].Valid())
      && bird.rect.CenterX() == birdStart.0
    }

    /** Between calls: the scene is valid, the best score is at least the
        score, the live pairs are distinct and all sway with the
        difficulty's parameters. */
    ghost predicate Valid()
      reads this, bird, sky, layers, ground
    {
      SceneValid()
      && score <= bestScore
      && Distinct(pipes)
      && SwayAll(pipes, swayAmplitude, swaySpeed)
    }

    /** The random draw fits `spawn_pipe`'s range and the variant list. */
    predicate DrawFits(draw: SpawnDraw)
    {
      MinCenter(cfg.pipeGap) <= draw.gapY <= MaxCenter(groundY, cfg.pipeGap)
      && draw.bottomPick < |pipeVariants| && draw.topPick < |pipeVariants|
    }

    /** `FluppyGame(screen, asset_root)`: `env` is FLUPPY_DIFFICULTY and
        `settings` the settings globals before difficulty is applied; the
        bird frames are the ones loaded at the applied scale. */
    constructor (env: Option<string>, settings: Config, birdFrames: seq<Surface>, deathFrame: Surface,
                 sky: ScrollingLayer, layers: seq<ScrollingLayer>, ground: ScrollingLayer,
                 pipeVariants: seq<PipeVariant>, maskOf: Sprite -> Mask, sine: real -> real)
      requires 0 < |birdFrames| && 0 < |pipeVariants|
      requires sky != ground && sky !in layers && ground !in layers && Distinct(layers)
      modifies sky, layers, ground
      ensures Valid()
      ensures var applied := ApplyDifficulty(env, settings);
        cfg == applied.settings && swayAmplitude == applied.swayAmplitude && swaySpeed == applied.swaySpeed
      ensures this.sky == sky && this.layers == layers && this.ground == ground
      ensures this.pipeVariants == pipeVariants && this.maskOf == maskOf && this.sine == sine
      ensures fresh(bird) && bird.frames == birdFrames && bird.deathFrame == deathFrame
      ensures state == Ready && score == 0 && bestScore == 0 && pipeTimer == 0.0 && pipes == [] && sfx == []
      ensures bird.AtStart(birdStart) && sky.AtRest() && ground.AtRest()
      ensures forall k :: 0 <= k < |layers| ==> layers[k].AtRest()
    {
      this.sky := sky;
      this.layers := layers;
      this.ground := ground;
      this.pipeVariants := pipeVariants;
      this.maskOf := maskOf;
      this.sine := sine;
      var applied := ApplyDifficulty(env, settings);
      cfg := applied.settings;
      swayAmplitude := applied.swayAmplitude;
      swaySpeed := applied.swaySpeed;
      var start := (SCREEN_WIDTH / 4, SCREEN_HEIGHT / 2);
      bird := new Bird(birdFrames, deathFrame, start);
      birdStart := start;
      groundY := SCREEN_HEIGHT - ground.height;
      state := Ready;
      pipeTimer := 0.0;
      score := 0;
      bestScore := 0;
      pipes := [];
      sfx := [];
      new;
      Reset(true);
    }

    /** `reset(keep_best=...)`: a new round on the waiting screen. */
    method Reset(keepBest: bool)
      requires Assembled()
      modifies this, bird, sky, layers, ground
      ensures Valid()
      ensures state == Ready && score == 0 && pipeTimer == 0.0 && pipes == []
      ensures bestScore == if keepBest then old(bestScore) else 0
      ensures sfx == old(sfx)
      ensures bird.AtStart(birdStart) && sky.AtRest() && ground.AtRest()
      ensures forall k :: 0 <= k < |layers| ==> layers[k].AtRest()
    {
      state := Ready;
      if !keepBest {
        bestScore := 0;
      }
      score := 0;
      pipeTimer := 0.0;
      pipes := [];
      bird.Reset(birdStart);
      sky.Reset();
      ResetAll(layers);
      ground.Reset();
    }

    /** The state of a pair `spawn_pipe` builds from `draw`: at SPAWN_X, not
        passed, sway phase 0, the lower half's top and the upper half's
        bottom at the gap's edges around the drawn centre. */
    function SpawnMotion(draw: SpawnDraw): PipeMotion
      requires DrawFits(draw)
    {
      var lower := pipeVariants[draw.bottomPick];
      var upper := pipeVariants[draw.topPick];
      PipeMotion(SPAWN_X as real, 0.0,
                 Rect(0, 0, upper.width, upper.height).WithMidBottom(SPAWN_X, GapEdges(draw.gapY, cfg.pipeGap).1),
                 Rect(0, 0, lower.width, lower.height).WithMidTop(SPAWN_X, GapEdges(draw.gapY, cfg.pipeGap).0),
                 false)
    }

    /** `p` is the pair `spawn_pipe` builds from `draw`: the drawn variants
        (the upper one flipped), the drawn centre, the difficulty's sway,
        and the spawn state. */
    predicate SpawnedFrom(p: PipePair, draw: SpawnDraw)
      reads p
      requires DrawFits(draw)
    {
      p.Now() == SpawnMotion(draw) && BuiltFrom(p, draw)
    }

    /** The parts of a pair `spawn_pipe` fixes for good: the drawn centre,
        the difficulty's sway and the drawn variants' masks. */
    predicate BuiltFrom(p: PipePair, draw: SpawnDraw)
      requires DrawFits(draw)
    {
      p.baseGapCenter == draw.gapY && p.swayAmplitude == swayAmplitude && p.swaySpeed == swaySpeed
      && p.bottomMask == pipeVariants[draw.bottomPick].mask
      && p.topMask == FlipVertical(pipeVariants[draw.topPick].mask)
    }

    /** `spawn_pipe()` with the constructor call it evidently intends: a new
        pair at SPAWN_X around the drawn centre, appended to the live list. */
    method SpawnPipe(draw: SpawnDraw)
      requires Valid() && DrawFits(draw)
      modifies this`pipes
      ensures Valid()
      ensures |pipes| == |old(pipes)| + 1 && pipes[..|old(pipes)|] == old(pipes)
      ensures fresh(pipes[|old(pipes)|]) && SpawnedFrom(pipes[|old(pipes)|], draw)
      ensures Snapshots(pipes) == old(Snapshots(pipes)) + [SpawnMotion(draw)]
    {
      var pipe := new PipePair(pipeVariants, SPAWN_X, draw.gapY, cfg.pipeGap,
                               swayAmplitude, swaySpeed, draw.bottomPick, draw.topPick);
      pipes := pipes + [pipe];
      assert forall p :: p in pipes ==> p in old(pipes) || p == pipe;
      assert pipes[..|pipes| - 1] == old(pipes);
    }

    /** The score, the best score, the spawn timer and the live pairs are as
        they were. */
    twostate predicate RoundKept()
      reads this, pipes
    {
      score == old(score) && bestScore == old(bestScore) && pipeTimer == old(pipeTimer)
      && pipes == old(pipes) && forall p :: p in pipes ==> unchanged(p)
    }

    /** `_on_flap_request()`: start the round, flap, or start over. */
    method OnFlapRequest()
      requires Valid()
      modifies this, bird, sky, layers, ground
      ensures Valid() && Move(old(state), state)
      ensures old(state) == Ready ==>
        state == Playing && bird.Flapped() && sfx == old(sfx) + [Swooshing] && RoundKept()
      ensures old(state) == Playing ==>
        state == Playing && bird.Flapped() && sfx == old(sfx) + [Wing] && RoundKept()
      ensures old(state) == GameOver ==>
        state == Ready && score == 0 && bestScore == old(bestScore) && pipeTimer == 0.0 && pipes == []
        && sfx == old(sfx) && bird.AtStart(birdStart)
        && sky.AtRest() && ground.AtRest() && forall k :: 0 <= k < |layers| ==> layers[k].AtRest()
    {
      if state == Ready {
        state := Playing;
        bird.Flap();
        sfx := sfx + [Swooshing];
      } else if state == Playing {
        bird.Flap();
        sfx := sfx + [Wing];
      } else if state == GameOver {
        Reset(true);
      }
    }

    /** Every background band moved one tick. */
    twostate predicate BackgroundScrolled(dt: real)
      reads sky, layers, ground
      requires old(sky.Valid()) && old(ground.Valid()) && forall k :: 0 <= k < |layers| ==> old(layers[k].Valid())
    {
      sky.positions == sky.Next(old(sky.positions), dt)
      && ground.positions == ground.Next(old(ground.positions), dt)
      && forall k :: 0 <= k < |layers| ==>
        old(layers[k].Valid()) && layers[k].positions == layers[k].Next(old(layers[k].positions), dt)
    }

    /** `_scroll_background(dt)`: the sky, then every layer, then the ground. */
    method ScrollBackground(dt: real)
      requires Valid()
      modifies sky, layers, ground
      ensures Valid() && BackgroundScrolled(dt)
    {
      sky.Update(dt);
      UpdateAll(layers, dt);
      ground.Update(dt);
    }

    /** `_increment_score(amount)`: the best score follows the score up. */
    method IncrementScore(amount: nat)
      modifies this`score, this`bestScore
      ensures score == old(score) + amount
      ensures bestScore == MaxNat(old(bestScore), score)
    {
      score := score + amount;
      if score > bestScore {
        bestScore := score;
      }
    }

    /** `_trigger_game_over(ground_hit)`. */
    method TriggerGameOver(groundHit: bool)
      modifies this`state, this`sfx
      ensures state == GameOver && sfx == old(sfx) + GameOverCues(groundHit)
    {
      state := GameOver;
      sfx := sfx + [Hit];
      if groundHit {
        sfx := sfx + [Die];
      }
    }

    /** What this frame's pipe pass reads, `dt` given. */
    function TickOf(dt: real): Tick
      reads bird
    {
      Tick(dt, cfg.pipeSpeed, cfg.pipeGap, sine, bird.rect.CenterX())
    }

    /** The same read from the constants: `Valid` keeps the bird at its
        starting column, so this is the pace of every pass between calls. */
    function Pace(dt: real): (t: Tick)
      ensures t.dt == dt && t.birdX == birdStart.0
    {
      Tick(dt, cfg.pipeSpeed, cfg.pipeGap, sine, birdStart.0)
    }

    /** The score, the best score and the sound log, as a value. */
    function Counters(): Tally
      reads this
    {
      Tally(score, bestScore, sfx)
    }

    /** The pair's own part of one pass of `_update_pipes`' loop: it moves,
        and its `passed` latch goes up when it is still on screen and its
        upper half's centre is now left of the bird's; `scored` says that
        it went up. `orig` is the list the loop walks and `i` the pair's
        position in it. */
    method StepPipe(pipe: PipePair, dt: real, ghost orig: seq<PipePair>, ghost i: nat) returns (scored: bool)
      requires Distinct(orig) && i < |orig| && pipe == orig[i]
      modifies pipe
      ensures Snapshots(orig) == old(Snapshots(orig))[i := pipe.Now()]
      ensures Stepped(pipe, old(Snapshots(orig))[i], pipe.Now(), TickOf(dt))
      ensures scored <==> !old(Snapshots(orig))[i].passed && pipe.passed
      ensures scored ==> !pipe.IsOffscreen()
    {
      ghost var pre := Snapshots(orig);
      ghost var t := TickOf(dt);
      SnapshotsMeans(orig);
      OthersDiffer(orig, i);
      pipe.Update(dt, cfg.pipeSpeed, cfg.pipeGap, sine);
      ghost var moved := pipe.Now();
      assert pipe.Moves(pre[i], moved, t.dt, t.pipeSpeed, t.pipeGap, t.sine);
      scored := !pipe.IsOffscreen() && !pipe.passed && pipe.topRect.CenterX() < bird.rect.CenterX();
      if scored {
        pipe.passed := true;
      }
      ghost var n := pipe.Now();
      assert n == moved.(passed := pipe.passed);
      assert pipe.Moves(pre[i], n, t.dt, t.pipeSpeed, t.pipeGap, t.sine);
      assert Stepped(pipe, pre[i], n, t);
      SnapshotsMeans(orig);
      assert Snapshots(orig) == pre[i := pipe.Now()];
    }

    /** One pass of `_update_pipes`' loop, over the pair at position `i` of
        `orig`, the copy of the live list the loop walks, whose states were
        `cur`: the pair steps; it is removed from the live list (the first
        occurrence, as `list.remove` does) when now off screen, and
        otherwise scores a point with a point cue when its latch went up.
        No other pair changes. */
    method UpdatePipe(pipe: PipePair, dt: real, ghost orig: seq<PipePair>, ghost i: nat, ghost cur: seq<PipeMotion>)
      requires Distinct(orig) && i < |orig| && pipe == orig[i] && pipe in pipes && Snapshots(orig) == cur
      modifies pipe, this`pipes, this`score, this`bestScore, this`sfx
      ensures Snapshots(orig) == cur[i := pipe.Now()] && bird.rect == old(bird.rect)
      ensures Stepped(pipe, cur[i], pipe.Now(), TickOf(dt))
      ensures Offscreen(pipe.Now()) ==> pipes == RemoveFirst(old(pipes), pipe)
      ensures !Offscreen(pipe.Now()) ==> pipes == old(pipes)
      ensures Counters() == if !cur[i].passed && pipe.passed then Scored(old(Counters())) else old(Counters())
    {
      var scored := StepPipe(pipe, dt, orig, i);
      SettlePipe(pipe, scored);
    }

    /** The rest of one pass of `_update_pipes`' loop, after the pair
        stepped: a pair now off screen is removed from the live list (the
        first occurrence, as `list.remove` does); otherwise a pair whose
        latch went up scores a point with a point cue. */
    method SettlePipe(pipe: PipePair, scored: bool)
      requires pipe.IsOffscreen() ==> pipe in pipes
      modifies this`pipes, this`score, this`bestScore, this`sfx
      ensures pipes == if pipe.IsOffscreen() then RemoveFirst(old(pipes), pipe) else old(pipes)
      ensures Counters() == if !pipe.IsOffscreen() && scored then Scored(old(Counters())) else old(Counters())
    {
      if pipe.IsOffscreen() {
        pipes := RemoveFirst(pipes, pipe);
      } else if scored {
        IncrementScore(1);
        sfx := sfx + [Point];
      }
    }

    /** One pass of the loop of `_update_pipes(dt)` keeps its account: the
        pair at position `i` of `orig` steps from its state in `cur`, and
        the live list and the counters follow as `Walk` says. */
    method WalkPipe(dt: real, orig: seq<PipePair>, i: nat, ghost snaps: seq<PipeMotion>, ghost cur: seq<PipeMotion>,
                    ghost t: Tick, ghost start: Tally)
      requires Distinct(orig) && i < |orig| && t == TickOf(dt)
      requires Snapshots(orig) == cur && Walk(orig, snaps, cur, i, t, pipes, Counters(), start)
      modifies orig[i], this`pipes, this`score, this`bestScore, this`sfx
      ensures t == TickOf(dt) && Snapshots(orig) == cur[i := orig[i].Now()]
      ensures Walk(orig, snaps, cur[i := orig[i].Now()], i + 1, t, pipes, Counters(), start)
    {
      ghost var live := pipes;
      ghost var now := Counters();
      ListStep(orig, OffFlags(cur[..i]), i, false);
      UpdatePipe(orig[i], dt, orig, i, cur);
      PassStep(orig, snaps, cur, i, t, live, now, start, orig[i].Now(), pipes, Counters());
    }

    /** The loop of `_update_pipes(dt)` over a copy of the live list. */
    method UpdatePipeList(dt: real)
      requires Distinct(pipes) && score <= bestScore
      modifies this`pipes, this`score, this`bestScore, this`sfx, pipes
      ensures Walk(old(pipes), old(Snapshots(pipes)), Snapshots(old(pipes)), |old(pipes)|, TickOf(dt),
                   pipes, Counters(), old(Counters()))
    {
      var orig := pipes;
      ghost var snaps := Snapshots(orig);
      ghost var cur := snaps;
      ghost var start := Counters();
      ghost var t := TickOf(dt);
      for i := 0 to |orig|
        invariant t == TickOf(dt)
        invariant Snapshots(orig) == cur && Walk(orig, snaps, cur, i, t, pipes, Counters(), start)
      {
        WalkPipe(dt, orig, i, snaps, cur, t, start);
        cur := cur[i := orig[i].Now()];
      }
    }

    /** `_update_pipes(dt)`: every pair of the old live list stepped from
        its state in `before` to its state in `after`; the live list is the
        old one without the pairs now off screen; the score grew by the
        `gained` latches that went up, with a point cue for each. */
    method UpdatePipes(dt: real) returns (ghost before: seq<PipeMotion>, ghost after: seq<PipeMotion>, ghost gained: nat)
      requires Valid()
      modifies this`pipes, this`score, this`bestScore, this`sfx, pipes
      ensures Valid()
      ensures before == old(Snapshots(pipes)) && after == Snapshots(old(pipes))
      ensures PassOver(old(pipes), Pace(dt), before, after, gained, pipes)
      ensures pipes == Surviving(old(pipes))
      ensures forall p :: p in pipes <==> p in old(pipes) && !p.IsOffscreen()
      ensures score == old(score) + gained && bestScore == MaxNat(old(bestScore), score)
      ensures sfx == old(sfx) + Points(gained)
    {
      var orig := pipes;
      before := Snapshots(pipes);
      UpdatePipeList(dt);
      after := Snapshots(orig);
      assert TickOf(dt) == Pace(dt);
      gained := Flips(PassedOf(before), PassedOf(after));
      PassDone(orig, before, Pace(dt), pipes, Counters(), old(Counters()), swayAmplitude, swaySpeed);
    }

    /** The parts of the game `_check_collisions()` may change. */
    function CheckView(): Outcome
      reads this, bird
    {
      Outcome(bird.rect, bird.velocity, bird.positionY, state, sfx)
    }

    /** `_check_collisions()`: the ceiling and then the ground stop the bird
        and end the round; otherwise the round ends when some live pair
        shares an opaque pixel with the bird's current sprite. */
    method CheckCollisions() returns (ghost found: Outcome, ghost hit: bool)
      requires Valid()
      modifies this`state, this`sfx, bird
      ensures Valid() && bird.PoseKept()
      ensures (state == old(state) && sfx == old(sfx))
        || (state == GameOver && (sfx == old(sfx) + [Hit] || sfx == old(sfx) + [Hit, Die]))
      ensures found == old(CheckView()) && hit == AnyCollides(pipes, maskOf(bird.image), found.rect)
      ensures CheckView() == CheckOutcome(found.rect, found.velocity, found.positionY, hit, groundY, found.state, found.cues)
    {
      found := CheckView();
      hit := AnyCollides(pipes, maskOf(bird.image), bird.rect);
      var birdMask := maskOf(bird.image);
      var birdRect := bird.rect;
      if birdRect.Top() <= 0 {
        bird.rect := birdRect.WithTop(0);
        bird.velocity := 0.0;
        bird.positionY := bird.rect.CenterY() as real;
        TriggerGameOver(false);
        return;
      }
      if birdRect.Bottom() >= groundY {
        bird.rect := birdRect.WithBottom(groundY);
        bird.positionY := bird.rect.CenterY() as real;
        TriggerGameOver(true);
        return;
      }
      for i := 0 to |pipes|
        invariant forall k :: 0 <= k < i ==> !pipes[k].CollidesWith(birdMask, birdRect)
      {
        if pipes[i].CollidesWith(birdMask, birdRect) {
          TriggerGameOver(false);
          return;
        }
      }
    }

    /** This tick's timer reaches the spawn interval, so a pair is drawn. */
    predicate SpawnDue(dt: real)
      reads this
    {
      (pipeTimer + dt) * 1000.0 >= cfg.pipeSpawnMs as real
    }

    /** The spawn timer of `_update_play(dt)`: a new pair when the timer
        reaches the spawn interval, which restarts it. */
    method TickSpawnTimer(dt: real, draw: SpawnDraw)
      requires Valid() && (SpawnDue(dt) ==> DrawFits(draw))
      modifies this`pipeTimer, this`pipes
      ensures Valid()
      ensures var t := old(pipeTimer) + dt;
        (t * 1000.0 >= cfg.pipeSpawnMs as real ==>
           pipeTimer == 0.0 && |pipes| == |old(pipes)| + 1 && pipes[..|old(pipes)|] == old(pipes)
           && fresh(pipes[|old(pipes)|]) && SpawnedFrom(pipes[|old(pipes)|], draw))
        && (t * 1000.0 < cfg.pipeSpawnMs as real ==> pipeTimer == t && pipes == old(pipes))
      ensures forall p :: p in pipes ==> p in old(pipes) || fresh(p)
      ensures forall p :: p in old(pipes) ==> p in pipes
      ensures Snapshots(pipes) == old(Snapshots(pipes)) + if old(SpawnDue(dt)) then [SpawnMotion(draw)] else []
      ensures CheckView() == old(CheckView())
    {
      pipeTimer := pipeTimer + dt;
      if pipeTimer * 1000.0 >= cfg.pipeSpawnMs as real {
        pipeTimer := 0.0;
        SpawnPipe(draw);
        assert forall p :: p in pipes ==> p in old(pipes) || p == pipes[|old(pipes)|];
      } else {
        assert old(Snapshots(pipes)) + [] == old(Snapshots(pipes));
      }
    }

    /** The bird and the background of `_update_play(dt)`. */
    method MoveScene(dt: real)
      requires Valid()
      modifies bird, sky, layers, ground
      ensures Valid() && bird.Flew(dt) && BackgroundScrolled(dt)
      ensures Snapshots(pipes) == old(Snapshots(pipes))
    {
      bird.Update(dt);
      ScrollBackground(dt);
    }

    /** The bird, the background and the pairs of `_update_play(dt)`. */
    method StepWorld(dt: real) returns (ghost before: seq<PipeMotion>, ghost after: seq<PipeMotion>, ghost gained: nat)
      requires Valid()
      modifies this`pipes, this`score, this`bestScore, this`sfx, bird, sky, layers, ground, pipes
      ensures Valid() && bird.Flew(dt) && BackgroundScrolled(dt)
      ensures before == old(Snapshots(pipes)) && after == Snapshots(old(pipes))
      ensures PassOver(old(pipes), Pace(dt), before, after, gained, pipes)
      ensures pipes == Surviving(old(pipes))
      ensures forall p :: p in pipes <==> p in old(pipes) && !p.IsOffscreen()
      ensures score == old(score) + gained && bestScore == MaxNat(old(bestScore), score)
      ensures sfx == old(sfx) + Points(gained)
    {
      MoveScene(dt);
      before, after, gained := UpdatePipes(dt);
    }

    /** The rest of `_update_play(dt)`: the bird, the background, the pairs,
        then the collision checks, which find the bird as `found`: where
        its flight put it, and the phase and cue log as the pipe pass left
        them. */
    method AdvancePlay(dt: real)
      returns (ghost before: seq<PipeMotion>, ghost after: seq<PipeMotion>, ghost gained: nat,
               ghost found: Outcome, ghost hit: bool)
      requires Valid() && state == Playing
      modifies this`pipes, this`score, this`bestScore, this`sfx, this`state, bird, sky, layers, ground, pipes
      ensures Valid() && bird.Animated(dt) && BackgroundScrolled(dt)
      ensures state == Playing || state == GameOver
      ensures before == old(Snapshots(pipes))
      ensures PassOver(old(pipes), Pace(dt), before, after, gained, pipes)
      ensures forall p :: p in pipes <==> p in old(pipes) && !p.IsOffscreen()
      ensures score == old(score) + gained && bestScore == MaxNat(old(bestScore), score)
      ensures found == Flown(old(CheckView()), dt, gained)
      ensures hit == AnyCollides(pipes, maskOf(bird.image), found.rect)
      ensures CheckView() == CheckOutcome(found.rect, found.velocity, found.positionY, hit, groundY, found.state, found.cues)
    {
      before, after, gained := StepWorld(dt);
      found, hit := CheckCollisions();
    }

    /** `_update_play(dt)`: the spawn timer, then the bird, the background,
        the pairs and the collision checks. `walked` is the live list the
        pipe pass walks: the old one, with the pair drawn from `draw`
        appended when the spawn was due. The pass stepped those pairs from
        `before` to `after`, scoring `gained`; the collision checks found
        the bird as `found` and the pairs' masks as `hit` says. */
    method UpdatePlay(dt: real, draw: SpawnDraw)
      returns (ghost walked: seq<PipePair>, ghost before: seq<PipeMotion>, ghost after: seq<PipeMotion>,
               ghost gained: nat, ghost found: Outcome, ghost hit: bool)
      requires Valid() && state == Playing && (SpawnDue(dt) ==> DrawFits(draw))
      modifies this, bird, sky, layers, ground, pipes
      ensures Valid() && bird.Animated(dt) && BackgroundScrolled(dt)
      ensures state == Playing || state == GameOver
      ensures var t := old(pipeTimer) + dt;
        (t * 1000.0 >= cfg.pipeSpawnMs as real ==> pipeTimer == 0.0)
        && (t * 1000.0 < cfg.pipeSpawnMs as real ==> pipeTimer == t)
      ensures old(SpawnDue(dt)) ==>
        |walked| == |old(pipes)| + 1 && walked[..|old(pipes)|] == old(pipes)
        && fresh(walked[|old(pipes)|]) && BuiltFrom(walked[|old(pipes)|], draw)
      ensures !old(SpawnDue(dt)) ==> walked == old(pipes)
      ensures PassOver(walked, Pace(dt), before, after, gained, pipes)
      ensures before == old(Snapshots(pipes)) + if old(SpawnDue(dt)) then [SpawnMotion(draw)] else []
      ensures forall p :: p in pipes ==> (p in old(pipes) || fresh(p)) && !p.IsOffscreen()
      ensures forall p :: p in old(pipes) && !p.IsOffscreen() ==> p in pipes
      ensures score == old(score) + gained && bestScore == MaxNat(old(bestScore), score)
      ensures found == Flown(old(CheckView()), dt, gained)
      ensures hit == AnyCollides(pipes, maskOf(bird.image), found.rect)
      ensures CheckView() == CheckOutcome(found.rect, found.velocity, found.positionY, hit, groundY, found.state, found.cues)
    {
      TickSpawnTimer(dt, draw);
      walked := pipes;
      assert forall k :: 0 <= k < |pipes| ==> pipes[k] in old(pipes) || fresh(pipes[k]);
      before, after, gained, found, hit := AdvancePlay(dt);
    }

    /** `update(dt)`: float on the waiting screen, play, or fall after a
        crash. In play, the outputs are those of `_update_play(dt)`: the
        round ends exactly when the checks find the bird at the ceiling, on
        the ground or in a pair. */
    method Update(dt: real, draw: SpawnDraw)
      returns (ghost walked: seq<PipePair>, ghost before: seq<PipeMotion>, ghost after: seq<PipeMotion>,
               ghost gained: nat, ghost found: Outcome, ghost hit: bool)
      requires Valid() && (state == Playing && SpawnDue(dt) ==> DrawFits(draw))
      modifies this, bird, sky, layers, ground, pipes
      ensures Valid() && Move(old(state), state)
      ensures old(state) == Ready ==>
        state == Ready && bird.Floated(dt, birdStart.1) && BackgroundScrolled(dt) && RoundKept() && sfx == old(sfx)
      ensures old(state) == GameOver ==>
        state == GameOver && bird.Fell(dt) && BackgroundScrolled(dt) && RoundKept() && sfx == old(sfx)
      ensures old(state) == Playing ==> old(score) <= score && bestScore == MaxNat(old(bestScore), score)
      ensures old(state) == Playing ==>
        (old(SpawnDue(dt)) ==> |walked| == |old(pipes)| + 1 && walked[..|old(pipes)|] == old(pipes))
        && (!old(SpawnDue(dt)) ==> walked == old(pipes))
        && PassOver(walked, Pace(dt), before, after, gained, pipes) && score == old(score) + gained
        && found == Flown(old(CheckView()), dt, gained)
        && hit == AnyCollides(pipes, maskOf(bird.image), found.rect)
        && CheckView() == CheckOutcome(found.rect, found.velocity, found.positionY, hit, groundY, found.state, found.cues)
      ensures old(state) == Playing ==>
        before == old(Snapshots(pipes)) + (if old(SpawnDue(dt)) then [SpawnMotion(draw)] else [])
        && (forall p :: p in pipes ==> (p in old(pipes) || fresh(p)) && !p.IsOffscreen())
        && (forall p :: p in old(pipes) && !p.IsOffscreen() ==> p in pipes)
    {
      walked, before, after, gained, found, hit := pipes, [], [], 0, CheckView(), false;
      if state == Ready {
        bird.UpdateReady(dt, birdStart.1);
        ScrollBackground(dt);
        return;
      }
      if state == Playing {
        walked, before, after, gained, found, hit := UpdatePlay(dt, draw);
        return;
      }
      if state == GameOver {
        ScrollBackground(dt);
        bird.UpdateFalling(dt);
      }
    }
  }
}
