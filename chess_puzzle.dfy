/**
 * The puzzle trainer of the `ChessPuzzle` component: a player's legal moves
 * are checked one by one against the puzzle's solution, the attempt ends
 * solved or failed, and Reset and Next Puzzle start a new attempt.
 */
module ChessPuzzle {
  import opened Wrappers
  import opened Text
  import opened Oracle

  datatype Difficulty = Easy | Medium | Hard

  /** A puzzle: its start position as FEN and its solution as `from + to` square pairs. */
  datatype PuzzleSpec = PuzzleSpec(
    id: string,
    fen: string,
    solution: seq<string>,
    description: string,
    difficulty: Difficulty,
    theme: string,
    rating: int)

  /** The puzzles Next Puzzle cycles through. */
  const SamplePuzzles: seq<PuzzleSpec> := [
    PuzzleSpec("1", "r1bqkb1r/pppp1ppp/2n2n2/4p3/2B1P3/3P1N2/PPP2PPP/RNBQK2R b KQkq - 0 4",
               ["d8d4", "f3d4"], "Find the best move for Black to win material", Easy, "Fork", 1200),
    PuzzleSpec("2", "rnb1kbnr/pppp1ppp/8/4p3/4P3/8/PPPPKPPP/RNBQ1BNR b kq - 0 3",
               ["d8h4"], "Black to play and win quickly", Medium, "Checkmate in 1", 1500)
  ]

  // ---------------------------------------------------------------------
  // Checking moves against the solution
  // ---------------------------------------------------------------------

  datatype PuzzleStatus = Playing | Solved | Failed

  /** The moves a player has made in this attempt, and the verdict so far. */
  datatype Progress = Progress(moves: seq<string>, status: PuzzleStatus)

  const Fresh: Progress := Progress([], Playing)

  /**
   * What a verdict says about the moves: while playing they are a proper
   * beginning of the solution (or both are empty), when solved they are the
   * solution, and when failed every move but the last matched and the last
   * did not.
   */
  predicate Consistent(solution: seq<string>, p: Progress)
  {
    match p.status
    case Playing => p.moves < solution || (p.moves == [] && solution == [])
    case Solved => p.moves == solution
    case Failed =>
      |p.moves| > 0
      && var k := |p.moves| - 1;
         p.moves[..k] <= solution && (k >= |solution| || p.moves[k] != solution[k])
  }

  /**
   * The check in `onDrop` after a legal move: the move is appended first,
   * then compared with the solution entry at its own index (undefined past
   * the end, which never matches); a match on the last entry solves the
   * puzzle, a mismatch fails it.
   */
  function Judge(solution: seq<string>, p: Progress, moveString: string): (r: Progress)
    requires p.status == Playing
    ensures r.moves == p.moves + [moveString]
    ensures Consistent(solution, p) ==> Consistent(solution, r)
    ensures Consistent(solution, p) ==> (r.status == Solved <==> r.moves == solution)
    ensures Consistent(solution, p) ==> (r.status == Failed <==> !(r.moves <= solution))
  {
    var moves := p.moves + [moveString];
    var k := |moves| - 1;
    var expected := if k < |solution| then Some(solution[k]) else None;
    if expected == Some(moveString) then
      Progress(moves, if |moves| == |solution| then Solved else Playing)
    else
      Progress(moves, Failed)
  }

  /** The progress after a series of legal moves; once the attempt is over, moves are ignored. */
  function ReplayMoves(solution: seq<string>, p: Progress, moves: seq<string>): Progress
    decreases |moves|
  {
    if moves == [] || p.status != Playing then p
    else ReplayMoves(solution, Judge(solution, p, moves[0]), moves[1..])
  }

  /** Every series of moves keeps the verdict consistent, and the recorded moves only grow. */
  lemma {:induction false} ReplayConsistent(solution: seq<string>, p: Progress, moves: seq<string>)
    requires Consistent(solution, p)
    ensures Consistent(solution, ReplayMoves(solution, p, moves))
    ensures p.moves <= ReplayMoves(solution, p, moves).moves
    decreases |moves|
  {
    if moves != [] && p.status == Playing {
      var q := Judge(solution, p, moves[0]);
      ReplayConsistent(solution, q, moves[1..]);
    }
  }

  /** Playing the rest of the solution from any point of it solves the puzzle. */
  lemma {:induction false} ReplayRestSolves(solution: seq<string>, k: nat)
    requires k < |solution|
    ensures ReplayMoves(solution, Progress(solution[..k], Playing), solution[k..]) == Progress(solution, Solved)
    decreases |solution| - k
  {
    var p := Progress(solution[..k], Playing);
    var q := Judge(solution, p, solution[k]);
    assert solution[..k] + [solution[k]] == solution[..k + 1];
    if k + 1 < |solution| {
      assert solution[k..][1..] == solution[k + 1..];
      ReplayRestSolves(solution, k + 1);
    } else {
      assert solution[..k + 1] == solution;
      assert solution[k..][1..] == [];
    }
  }

  /** Playing the solution from the start solves the puzzle. */
  lemma ReplaySolutionSolves(solution: seq<string>)
    requires solution != []
    ensures ReplayMoves(solution, Fresh, solution) == Progress(solution, Solved)
  {
    ReplayRestSolves(solution, 0);
    assert solution[..0] == [] && solution[0..] == solution;
  }

  /** A wrong first move fails the attempt at once, and that move stays recorded. */
  lemma WrongFirstMoveFails(solution: seq<string>, moves: seq<string>)
    requires moves != [] && (solution == [] || moves[0] != solution[0])
    ensures ReplayMoves(solution, Fresh, moves) == Progress([moves[0]], Failed)
  {
  }

  // ---------------------------------------------------------------------
  // Next Puzzle and the hint
  // ---------------------------------------------------------------------

  /** `findIndex` by id: the first puzzle with that id, or -1. */
  function FindIndex(puzzles: seq<PuzzleSpec>, id: string): (r: int)
    ensures -1 <= r < |puzzles|
    ensures r == -1 <==> forall i :: 0 <= i < |puzzles| ==> puzzles[i].id != id
    ensures r >= 0 ==> puzzles[r].id == id && forall i :: 0 <= i < r ==> puzzles[i].id != id
  {
    if puzzles == [] then -1
    else if puzzles[0].id == id then 0
    else
      var k := FindIndex(puzzles[1..], id);
      if k == -1 then -1 else k + 1
  }

  /** The index Next Puzzle moves to: the one after the current, wrapping to the first; an unknown id also gives the first. */
  function NextIndex(puzzles: seq<PuzzleSpec>, id: string): (r: nat)
    requires |puzzles| > 0
    ensures r < |puzzles|
    ensures (forall i :: 0 <= i < |puzzles| ==> puzzles[i].id != id) ==> r == 0
    ensures FindIndex(puzzles, id) == |puzzles| - 1 ==> r == 0
    ensures 0 <= FindIndex(puzzles, id) < |puzzles| - 1 ==> r == FindIndex(puzzles, id) + 1
  {
    var k := FindIndex(puzzles, id) + 1;
    WrapAround(k, |puzzles|);
    k % |puzzles|
  }

  /** `k % n` for `0 <= k <= n`: `k` itself, except that `n` wraps to 0. */
  lemma WrapAround(k: nat, n: nat)
    requires 0 < n && k <= n
    ensures k % n == if k == n then 0 else k
  {
  }

  /** With the two sample puzzles, Next Puzzle alternates between them. */
  lemma SamplesAlternate()
    ensures NextIndex(SamplePuzzles, "1") == 1
    ensures NextIndex(SamplePuzzles, "2") == 0
    ensures NextIndex(SamplePuzzles, "3") == 0
  {
    assert SamplePuzzles[0].id == "1" && SamplePuzzles[1].id == "2";
    assert "1" != "2" && "1" != "3" && "2" != "3";
  }

  /** The hint's origin square: the first two characters of the first solution move, if there is one. */
  function HintFrom(p: PuzzleSpec): (r: Option<string>)
    ensures r.Some? <==> p.solution != []
    ensures r.Some? ==> |r.value| <= 2 && r.value <= p.solution[0]
    ensures r.Some? ==> |r.value| == if |p.solution[0]| < 2 then |p.solution[0]| else 2
  {
    if p.solution == [] then None else Some(Slice(p.solution[0], 0, 2))
  }

  /** The hint's target square: characters two to four of the first solution move. */
  function HintTo(p: PuzzleSpec): (r: Option<string>)
    ensures r.Some? <==> p.solution != []
    ensures r.Some? ==> |r.value| <= 2
    ensures r.Some? ==> HintFrom(p).value + r.value == Slice(p.solution[0], 0, 4)
    ensures r.Some? && 4 <= |p.solution[0]| ==> r.value == p.solution[0][2..4]
  {
    if p.solution == [] then None
    else
      SliceSplit(p.solution[0], 0, 2, 4);
      Some(Slice(p.solution[0], 2, 4))
  }

  /** The two halves of the hint put together give back a four-character first move. */
  lemma HintRecomposes(p: PuzzleSpec)
    requires p.solution != [] && |p.solution[0]| == 4
    ensures HintFrom(p).value + HintTo(p).value == p.solution[0]
  {
    SliceSplit(p.solution[0], 0, 2, 4);
    assert p.solution[0][0..4] == p.solution[0];
  }

  // ---------------------------------------------------------------------
  // The component
  // ---------------------------------------------------------------------

  /** What `onSolved` receives: the puzzle's id and the number of moves played. */
  datatype SolvedNotice = SolvedNotice(puzzleId: string, moves: nat)

  class PuzzleSession<P> {
    const rules: Rules<P>
    var currentPuzzle: PuzzleSpec
    var game: P
    var playerMoves: seq<string>
    var puzzleStatus: PuzzleStatus
    var showHint: bool
    var moveCount: nat

    /** The move counter counts the recorded moves, and the status is consistent with them. */
    ghost predicate Valid()
      reads this
    {
      moveCount == |playerMoves| && Consistent(currentPuzzle.solution, CurrentProgress())
    }

    function CurrentProgress(): Progress
      reads this
    {
      Progress(playerMoves, puzzleStatus)
    }

    /** The first render: the given puzzle, or the first sample one. */
    constructor (rules: Rules<P>, puzzle: Option<PuzzleSpec>)
      ensures Valid()
      ensures this.rules == rules
      ensures currentPuzzle == if puzzle.Some? then puzzle.value else SamplePuzzles[0]
      ensures game == rules.load(currentPuzzle.fen)
      ensures CurrentProgress() == Fresh && !showHint && moveCount == 0
    {
      this.rules := rules;
      var initial := if puzzle.Some? then puzzle.value else SamplePuzzles[0];
      currentPuzzle := initial;
      game := rules.load(initial.fen);
      playerMoves := [];
      puzzleStatus := Playing;
      showHint := false;
      moveCount := 0;
    }

    /**
     * `onDrop`: refused after the attempt is over and when chess.js refuses
     * the move; otherwise the move is made, recorded and judged, and
     * `onSolved` is reported when it completes the solution.
     */
    method OnDrop(from: string, to: string) returns (accepted: bool, solved: Option<SolvedNotice>)
      requires Valid()
      modifies this
      ensures Valid()
      ensures currentPuzzle == old(currentPuzzle) && showHint == old(showHint)
      ensures accepted == (old(puzzleStatus) == Playing && rules.TryMove(old(game), from, to).Some?)
      ensures !accepted ==> unchanged(this) && solved == None
      ensures accepted ==>
        && game == rules.TryMove(old(game), from, to).value.after
        && CurrentProgress() == Judge(currentPuzzle.solution, old(CurrentProgress()), from + to)
        && moveCount == old(moveCount) + 1
      ensures solved.Some? <==> accepted && puzzleStatus == Solved
      ensures solved.Some? ==> solved.value == SolvedNotice(currentPuzzle.id, old(moveCount) + 1)
    {
      solved := None;
      if puzzleStatus != Playing {
        return false, None;
      }
      var move := rules.TryMove(game, from, to);
      if move.None? {
        return false, None;
      }
      ghost var before := CurrentProgress();
      var countBefore := moveCount;
      var moveString := from + to;
      var newPlayerMoves := playerMoves + [moveString];
      game := move.value.after;
      playerMoves := newPlayerMoves;
      moveCount := moveCount + 1;
      var k := |newPlayerMoves| - 1;
      var expected := if k < |currentPuzzle.solution| then Some(currentPuzzle.solution[k]) else None;
      if expected == Some(moveString) {
        if |newPlayerMoves| == |currentPuzzle.solution| {
          puzzleStatus := Solved;
          solved := Some(SolvedNotice(currentPuzzle.id, countBefore + 1));
        }
      } else {
        puzzleStatus := Failed;
      }
      assert CurrentProgress() == Judge(currentPuzzle.solution, before, moveString);
      accepted := true;
    }

    /** Reset: the same puzzle from its start position, nothing played, hint hidden. */
    method ResetPuzzle()
      requires Valid()
      modifies this
      ensures Valid()
      ensures currentPuzzle == old(currentPuzzle)
      ensures game == rules.load(currentPuzzle.fen)
      ensures CurrentProgress() == Fresh && !showHint && moveCount == 0
    {
      game := rules.load(currentPuzzle.fen);
      playerMoves := [];
      puzzleStatus := Playing;
      showHint := false;
      moveCount := 0;
    }

    /** Next Puzzle: the sample puzzle after the current one, from its start position. */
    method NextPuzzle()
      requires Valid()
      modifies this
      ensures Valid()
      ensures currentPuzzle == SamplePuzzles[NextIndex(SamplePuzzles, old(currentPuzzle).id)]
      ensures game == rules.load(currentPuzzle.fen)
      ensures CurrentProgress() == Fresh && !showHint && moveCount == 0
    {
      var nextIndex := NextIndex(SamplePuzzles, currentPuzzle.id);
      currentPuzzle := SamplePuzzles[nextIndex];
      game := rules.load(currentPuzzle.fen);
      playerMoves := [];
      puzzleStatus := Playing;
      showHint := false;
      moveCount := 0;
    }

    /** The Hint button shows or hides the hint and changes nothing else. */
    method ToggleHint()
      requires Valid()
      modifies this`showHint
      ensures Valid() && showHint == !old(showHint)
    {
      showHint := !showHint;
    }
  }
}
