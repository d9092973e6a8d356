// Difficulty resolution of fluppy/difficulty.py. The Python functions read
// the environment and write the `settings` globals; here the environment
// value is a parameter and the globals are a `Config` passed in and returned.
module Difficulty {
  import opened Settings

  datatype Option<T> = None | Some(value: T)

  /** `list_difficulties()`: the preset names in table order. */
  function ListDifficulties(): (names: seq<string>)
    ensures names == ["easy", "normal", "hard"]
    ensures forall i :: 0 <= i < |names| ==> IsKey(names[i])
  {
    TableShape();
    Keys(DIFFICULTIES)
  }

  /** `str.lower()` on one character, for the ASCII letters. */
  function LowerChar(c: char): char
  {
    if 'A' <= c <= 'Z' then (c as int + 32) as char else c
  }

  /** The upper-case partner of a lower-case ASCII letter. */
  function UpperChar(c: char): char
  {
    if 'a' <= c <= 'z' then (c as int - 32) as char else c
  }

  function Lower(s: string): (r: string)
    ensures |r| == |s| && forall i :: 0 <= i < |s| ==> r[i] == LowerChar(s[i])
  {
    seq(|s|, i requires 0 <= i < |s| => LowerChar(s[i]))
  }

  /** `name` spells `key` up to the case of its letters. */
  predicate SameIgnoringCase(name: string, key: string)
  {
    |name| == |key| && forall i :: 0 <= i < |key| ==> name[i] == key[i] || name[i] == UpperChar(key[i])
  }

  /** `normalize(name)`: the lower-cased name when it is a preset key. */
  function Normalize(name: string): (r: Option<string>)
    ensures r.Some? <==> IsKey(Lower(name))
    ensures r.Some? ==> r.value == Lower(name)
  {
    var key := Lower(name);
    if IsKey(key) then Some(key) else None
  }

  /** No preset key contains an upper-case ASCII letter. */
  lemma KeysAreLowerCase(key: string, i: int)
    requires IsKey(key) && 0 <= i < |key|
    ensures !('A' <= key[i] <= 'Z')
  {
    TableShape();
  }

  /** Normalisation is case-insensitive matching against the keys: a name
      normalises to `key` exactly when it spells `key` in any mix of cases. */
  lemma {:induction false} NormalizeIgnoresCase(name: string, key: string)
    requires IsKey(key)
    ensures Normalize(name) == Some(key) <==> SameIgnoringCase(name, key)
  {
    if Normalize(name) == Some(key) {
      forall i | 0 <= i < |key|
        ensures name[i] == key[i] || name[i] == UpperChar(key[i])
      {
        assert Lower(name)[i] == LowerChar(name[i]);
      }
    }
    if SameIgnoringCase(name, key) {
      forall i | 0 <= i < |key|
        ensures Lower(name)[i] == key[i]
      {
        KeysAreLowerCase(key, i);
      }
      assert Lower(name) == key;
    }
  }

  /** Python truthiness of `normalize(...)`'s result. */
  predicate Truthy(o: Option<string>)
  {
    o.Some? && o.value != ""
  }

  /** The environment choice is used: set and non-empty, and it normalises. */
  predicate EnvChoiceValid(env: Option<string>)
  {
    env.Some? && env.value != "" && Truthy(Normalize(env.value))
  }

  /** What `resolve_difficulty` returns, with the globals it leaves behind. */
  datatype Resolution = Resolution(preset: DifficultyPreset, settings: Config)

  /** `resolve_difficulty()`, with `env` the value of FLUPPY_DIFFICULTY
      (`None` when unset) and `cfg` the settings globals before the call. */
  function Resolve(env: Option<string>, cfg: Config): (r: Resolution)
    ensures IsKey(r.settings.difficulty) && r.preset == Lookup(r.settings.difficulty)
    ensures r.settings == cfg.(difficulty := r.settings.difficulty)
  {
    var normalized := if env.Some? && env.value != "" then Normalize(env.value) else None;
    if Truthy(normalized) then
      Resolution(Lookup(normalized.value), cfg.(difficulty := normalized.value))
    else
      var name := if IsKey(cfg.difficulty) then cfg.difficulty else Keys(DIFFICULTIES)[0];
      Resolution(Lookup(name), cfg.(difficulty := name))
  }

  /** A non-empty environment choice naming a preset (in any case) wins, and
      is stored as the selected difficulty. */
  lemma EnvChoiceWins(choice: string, key: string, cfg: Config)
    requires choice != "" && IsKey(key) && SameIgnoringCase(choice, key)
    ensures Resolve(Some(choice), cfg) == Resolution(Lookup(key), cfg.(difficulty := key))
  {
    NormalizeIgnoresCase(choice, key);
    TableShape();
  }

  /** Without a usable environment choice a valid stored selection is kept. */
  lemma StoredChoiceKept(env: Option<string>, cfg: Config)
    requires !EnvChoiceValid(env) && IsKey(cfg.difficulty)
    ensures Resolve(env, cfg) == Resolution(Lookup(cfg.difficulty), cfg)
  {
  }

  /** Without a usable environment choice an invalid stored selection is
      replaced by the first key of the table, "easy" (not the default
      "normal"). */
  lemma InvalidStoredFallsBackToEasy(env: Option<string>, cfg: Config)
    requires !EnvChoiceValid(env) && !IsKey(cfg.difficulty)
    ensures Resolve(env, cfg) == Resolution(Lookup("easy"), cfg.(difficulty := "easy"))
  {
    TableShape();
  }

  /** Resolving again under the same environment returns the same preset and
      leaves the stored selection as it is. */
  lemma ResolveIdempotent(env: Option<string>, cfg: Config)
    ensures var first := Resolve(env, cfg);
      Resolve(env, first.settings) == first
  {
  }

  /** The sway parameters `apply_difficulty` hands back to the game, with the
      globals it leaves behind. */
  datatype Applied = Applied(swayAmplitude: int, swaySpeed: real, settings: Config)

  /** `apply_difficulty()`: resolve, copy the preset into the globals, and
      return the sway parameters (zero unless the preset sways). */
  function ApplyDifficulty(env: Option<string>, cfg: Config): (r: Applied)
    ensures IsKey(r.settings.difficulty)
    ensures var p := Lookup(r.settings.difficulty);
      && r.settings.pipeSpeed == p.pipeSpeed
      && r.settings.pipeGap == p.pipeGap
      && r.settings.pipeSpawnMs == p.pipeSpawnMs
      && r.settings.birdScale == p.birdScale
      && (p.pipeSway ==> r.swayAmplitude == p.swayAmplitude && r.swaySpeed == p.swaySpeed)
      && (!p.pipeSway ==> r.swayAmplitude == 0 && r.swaySpeed == 0.0)
    ensures r.settings.difficulty == Resolve(env, cfg).settings.difficulty
  {
    var preset := Resolve(env, cfg).preset;
    var settings := Resolve(env, cfg).settings.(
      pipeSpeed := preset.pipeSpeed,
      pipeGap := preset.pipeGap,
      pipeSpawnMs := preset.pipeSpawnMs,
      birdScale := preset.birdScale);
    var swaySpeed := if preset.pipeSway then preset.swaySpeed else 0.0;
    var amplitude := if preset.pipeSway then preset.swayAmplitude else 0;
    Applied(amplitude, swaySpeed, settings)
  }

  /** Applying twice under the same environment changes nothing further. */
  lemma ApplyIdempotent(env: Option<string>, cfg: Config)
    ensures var first := ApplyDifficulty(env, cfg);
      ApplyDifficulty(env, first.settings) == first
  {
    ResolveIdempotent(env, cfg);
  }

  /** Every applied gap is even and positive, so the pipes' `gap / 2` is exact. */
  lemma AppliedGapIsEven(env: Option<string>, cfg: Config)
    ensures var g := ApplyDifficulty(env, cfg).settings.pipeGap; 0 < g && g % 2 == 0
  {
    ConstantsAreSane();
  }
}
