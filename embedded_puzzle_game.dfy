/**
 * EmbeddedPuzzleGame.tsx: the puzzle inside the hobbies section, shuffled with 50 moves
 * and initialised only the first time the section becomes active.
 */
module EmbeddedPuzzle {
  import opened PuzzleBoard
  import SlidingPuzzle

  const ShuffleSteps: nat := 50

  class EmbeddedPuzzleGame {
    const game: SlidingPuzzle.Game
    var hasInitialized: bool

    ghost predicate Valid()
      reads this, game
    {
      && game.Valid()
      && (hasInitialized ==> game.tiles != [])
    }

    constructor ()
      ensures Valid() && fresh(game) && !hasInitialized
      ensures game.tiles == [] && game.moves == 0 && !game.isComplete
    {
      game := new SlidingPuzzle.Game();
      hasInitialized := false;
    }

    /**
     * The effect on `isActive`: the first activation initialises the puzzle, starts the
     * clock and records that it did; every other call leaves the game as it is.
     */
    method ActivationEffect(isActive: bool, now: int, choices: seq<real>)
      requires Valid() && |choices| == ShuffleSteps && ValidChoices(choices)
      modifies this, game
      ensures Valid()
      ensures hasInitialized == (old(hasInitialized) || isActive)
      ensures isActive && !old(hasInitialized) ==>
                && game.tiles == Shuffled(SolvedBoard, choices)
                && game.moves == 0 && !game.isComplete && game.elapsedTime == 0
                && game.startTime == now
      ensures !(isActive && !old(hasInitialized)) ==> unchanged(game)
    {
      if isActive && !hasInitialized {
        game.InitializePuzzle(choices);
        game.startTime := now;
        hasInitialized := true;
      }
    }
  }
}
