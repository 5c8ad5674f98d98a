/** MiniPuzzleGame.tsx: the modal puzzle, reshuffled with 100 moves every time it opens. */
module MiniPuzzle {
  import opened PuzzleBoard
  import SlidingPuzzle

  const ShuffleSteps: nat := 100

  class MiniPuzzleGame {
    const game: SlidingPuzzle.Game

    ghost predicate Valid()
      reads this, game
    {
      game.Valid()
    }

    constructor ()
      ensures Valid() && fresh(game)
      ensures game.tiles == [] && game.moves == 0 && !game.isComplete
    {
      game := new SlidingPuzzle.Game();
    }

    /** The effect on `isOpen`: opening initialises a fresh shuffle and starts the clock;
        closing changes nothing. */
    method OpenChanged(isOpen: bool, now: int, choices: seq<real>)
      requires Valid() && |choices| == ShuffleSteps && ValidChoices(choices)
      modifies game
      ensures Valid()
      ensures isOpen ==> && game.tiles == Shuffled(SolvedBoard, choices)
                         && game.moves == 0 && !game.isComplete && game.elapsedTime == 0
                         && game.startTime == now
      ensures !isOpen ==> unchanged(game)
    {
      if isOpen {
        game.InitializePuzzle(choices);
        game.startTime := now;
      }
    }
  }
}
