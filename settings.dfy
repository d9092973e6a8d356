// Game-wide settings of fluppy/settings.py: the physics constants, the
// difficulty preset record and its ordered table, and the handful of
// module globals that other modules reassign (gathered in `Config`).
module Settings {

  const SCREEN_WIDTH: int := 576
  const SCREEN_HEIGHT: int := 1024
  const GRAVITY: real := 2200.0
  const FLAP_VELOCITY: real := -760.0
  const MAX_DROP_SPEED: real := 1020.0
  const BIRD_ANIMATION_MS: real := 120.0
  const START_FLOAT_AMPLITUDE: real := 8.0
  const START_FLOAT_SPEED: real := 2.2

  // Initial values of the globals that difficulty selection reassigns.
  const PIPE_SPAWN_MS: int := 1600
  const PIPE_SPEED: int := 220
  const PIPE_GAP: int := 260
  const BIRD_SCALE: real := 0.187

  /** A difficulty preset (a frozen dataclass). */
  datatype DifficultyPreset = DifficultyPreset(
    pipeSpeed: int,
    pipeGap: int,
    pipeSpawnMs: int,
    birdScale: real,
    pipeSway: bool,
    swayAmplitude: int,
    swaySpeed: real)

  /** A preset built with the dataclass defaults for the sway fields. */
  function Steady(pipeSpeed: int, pipeGap: int, pipeSpawnMs: int, birdScale: real): DifficultyPreset
  {
    DifficultyPreset(pipeSpeed, pipeGap, pipeSpawnMs, birdScale, false, 0, 0.0)
  }

  /** The DIFFICULTIES dict, as its entries in insertion order. */
  const DIFFICULTIES: seq<(string, DifficultyPreset)> := [
    ("easy", Steady(180, 320, 1750, 0.166)),
    ("normal", Steady(220, 260, 1600, 0.187)),
    ("hard", DifficultyPreset(260, 220, 1450, 0.208, true, 40, 2.2))
  ]

  const DIFFICULTY: string := "normal"

  /** The keys of an ordered table, in order. */
  function Keys(table: seq<(string, DifficultyPreset)>): (ks: seq<string>)
    ensures |ks| == |table|
    ensures forall i :: 0 <= i < |table| ==> ks[i] == table[i].0
  {
    if table == [] then [] else [table[0].0] + Keys(table[1..])
  }

  /** `name in DIFFICULTIES`. */
  predicate IsKey(name: string)
  {
    name in Keys(DIFFICULTIES)
  }

  /** `DIFFICULTIES[name]`; the first entry with that key. */
  function Lookup(name: string): (p: DifficultyPreset)
    requires IsKey(name)
    ensures exists i :: 0 <= i < |DIFFICULTIES| && DIFFICULTIES[i] == (name, p)
  {
    if name == DIFFICULTIES[0].0 then DIFFICULTIES[0].1
    else if name == DIFFICULTIES[1].0 then DIFFICULTIES[1].1
    else DIFFICULTIES[2].1
  }

  /** The module globals of `settings` that other modules reassign. */
  datatype Config = Config(
    pipeSpeed: int,
    pipeGap: int,
    pipeSpawnMs: int,
    birdScale: real,
    difficulty: string)

  /** The globals as the module binds them at import. */
  const INITIAL_CONFIG: Config := Config(PIPE_SPEED, PIPE_GAP, PIPE_SPAWN_MS, BIRD_SCALE, DIFFICULTY)

  /** Exactly three presets, keyed easy, normal, hard in that order, and the
      keys are distinct. */
  lemma TableShape()
    ensures Keys(DIFFICULTIES) == ["easy", "normal", "hard"]
    ensures forall i, j :: 0 <= i < j < |DIFFICULTIES| ==> DIFFICULTIES[i].0 != DIFFICULTIES[j].0
  {
  }

  /** From easy to normal to hard the gap shrinks, the pipes speed up and
      they spawn more often. */
  lemma DifficultyRises()
    ensures forall i, j :: 0 <= i < j < |DIFFICULTIES| ==>
      DIFFICULTIES[j].1.pipeGap < DIFFICULTIES[i].1.pipeGap
      && DIFFICULTIES[i].1.pipeSpeed < DIFFICULTIES[j].1.pipeSpeed
      && DIFFICULTIES[j].1.pipeSpawnMs < DIFFICULTIES[i].1.pipeSpawnMs
  {
  }

  /** Only "hard" sways (amplitude 40, angular speed 2.2); the other presets
      keep the dataclass defaults. */
  lemma OnlyHardSways(name: string)
    requires IsKey(name)
    ensures Lookup(name).pipeSway <==> name == "hard"
    ensures name == "hard" ==> Lookup(name).swayAmplitude == 40 && Lookup(name).swaySpeed == 2.2
    ensures name != "hard" ==> Lookup(name).swayAmplitude == 0 && Lookup(name).swaySpeed == 0.0
  {
  }

  /** The default selection names a preset, and that preset is the one the
      module-level globals start from. */
  lemma DefaultIsNormal()
    ensures IsKey(DIFFICULTY)
    ensures var p := Lookup(DIFFICULTY);
      p.pipeSpeed == PIPE_SPEED && p.pipeGap == PIPE_GAP
      && p.pipeSpawnMs == PIPE_SPAWN_MS && p.birdScale == BIRD_SCALE
  {
  }

  /** Flapping points up, falling is capped downward, and every gap is even so
      halving it is exact. */
  lemma ConstantsAreSane()
    ensures FLAP_VELOCITY < 0.0 < MAX_DROP_SPEED
    ensures 0.0 < BIRD_ANIMATION_MS && 0.0 < START_FLOAT_AMPLITUDE
    ensures PIPE_GAP % 2 == 0
    ensures forall i :: 0 <= i < |DIFFICULTIES| ==> DIFFICULTIES[i].1.pipeGap % 2 == 0 && 0 < DIFFICULTIES[i].1.pipeGap
  {
  }
}
