/**
 * The state machine both puzzle components share: the tiles, the move counter, the
 * completion flag and the timer fields, with initializePuzzle, handleTileClick and the
 * timer tick.
 */
module SlidingPuzzle {
  import opened PuzzleBoard

  class Game {
    var tiles: seq<int>
    var moves: nat
    var isComplete: bool
    var startTime: int
    var elapsedTime: nat

    /** The tiles are empty before the first initialisation and a board afterwards; a
        completed game passes the win test (so shows the solved board, by WinIffSolved). */
    ghost predicate Valid()
      reads this
    {
      && (tiles == [] || IsBoard(tiles))
      && (isComplete ==> IsWin(tiles))
    }

    constructor ()
      ensures Valid()
      ensures tiles == [] && moves == 0 && !isComplete && startTime == 0 && elapsedTime == 0
    {
      tiles, moves, isComplete, startTime, elapsedTime := [], 0, false, 0, 0;
    }

    /** initializePuzzle: the solved board shuffled by the given random values (solvable
        by PuzzleBoard.ShuffledIsSolvable), no moves, not complete, time zero. */
    method InitializePuzzle(choices: seq<real>)
      requires Valid() && ValidChoices(choices)
      modifies this
      ensures Valid()
      ensures tiles == Shuffled(SolvedBoard, choices) && IsBoard(tiles)
      ensures moves == 0 && !isComplete && elapsedTime == 0 && startTime == old(startTime)
    {
      // shufflePuzzle works on a copy of the solved board
      assert IsBoard(SolvedBoard);
      var a := new int[Size](i requires 0 <= i < Size => SolvedBoard[i]);
      assert a[..] == SolvedBoard;
      ShuffleInPlace(a, choices);
      var shuffled := a[..];
      tiles, moves, isComplete, elapsedTime := shuffled, 0, false, 0;
    }

    /**
     * handleTileClick on the rendered cell `index`: ignored once the puzzle is complete or
     * when the cell is not a valid move of the empty cell; otherwise the two cells trade
     * places, one move is counted and completion is checked again.
     */
    method HandleTileClick(index: int)
      requires Valid() && 0 <= index < |tiles|
      modifies this
      ensures Valid()
      ensures var e := EmptyIndex(old(tiles));
        if !old(isComplete) && index in ValidMoves(e) then
          && tiles == Swap(old(tiles), e, index)
          && LegalMove(old(tiles), tiles)
          && moves == old(moves) + 1
          && isComplete == IsWin(tiles)
        else
          tiles == old(tiles) && moves == old(moves) && isComplete == old(isComplete)
      ensures startTime == old(startTime) && elapsedTime == old(elapsedTime)
    {
      if isComplete {
        return;
      }
      var emptyIndex := EmptyIndex(tiles);
      var validMoves := ValidMoves(emptyIndex);
      if index in validMoves {
        ValidMoveIsLegal(tiles, index);
        var newTiles := Swap(tiles, emptyIndex, index);
        tiles := newTiles;
        moves := moves + 1;
        var isWin := IsWin(newTiles);
        if isWin {
          isComplete := true;
        }
      }
    }

    /** One timer interval: whole seconds since the start. The interval runs only while
        the game is shown, unfinished and started. */
    method TimerTick(now: int)
      requires !isComplete && startTime > 0 && now >= startTime
      modifies this`elapsedTime
      ensures elapsedTime == (now - startTime) / 1000
    {
      elapsedTime := (now - startTime) / 1000;
    }
  }
}
