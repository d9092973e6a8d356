// The phases of a round (fluppy/state.py, and the same enum in game.py) and
// the sound cues the game asks for.
module GameStates {

  /** Waiting to start, in flight, or crashed. */
  datatype GameState = Ready | Playing | GameOver

  /** A sound effect the game asks to play: sfx_swooshing, sfx_wing,
      sfx_point, sfx_hit, sfx_die. */
  datatype Sfx = Swooshing | Wing | Point | Hit | Die

  /** The phase changes one handled event or one frame tick can make: a
      flap request starts a round from the waiting screen or restarts after
      a crash, and a tick in flight can end the round. */
  predicate Move(s: GameState, t: GameState)
  {
    t == s
    || (s == Ready && t == Playing)
    || (s == Playing && t == GameOver)
    || (s == GameOver && t == Ready)
  }

  /** A sequence of phases where each one follows from the previous by a
      `Move`. */
  predicate Run(trace: seq<GameState>)
  {
    forall i :: 0 < i < |trace| ==> Move(trace[i - 1], trace[i])
  }

  /** A crash is only reachable through a round in flight: every run from
      the waiting screen that ends crashed passes through `Playing`. */
  lemma {:induction false} CrashNeedsFlight(trace: seq<GameState>)
    requires Run(trace) && 0 < |trace| && trace[0] == Ready && trace[|trace| - 1] == GameOver
    ensures exists i :: 0 < i < |trace| - 1 && trace[i] == Playing
  {
    var n := |trace| - 1;
    assert Move(trace[n - 1], trace[n]);
    if trace[n - 1] == Playing {
      assert 0 < n - 1;
    } else {
      assert trace[n - 1] == GameOver;
      var front := trace[..n];
      assert Run(front) by {
        forall i | 0 < i < |front|
          ensures Move(front[i - 1], front[i])
        {
          assert front[i - 1] == trace[i - 1] && front[i] == trace[i];
        }
      }
      CrashNeedsFlight(front);
      var i :| 0 < i < |front| - 1 && front[i] == Playing;
      assert trace[i] == Playing;
    }
  }
}
