/**
 * The chess rules the components take from chess.js, which this model does
 * not implement: an oracle over an opaque position type `P`.  Every
 * function is total; a move chess.js refuses (it returns null or throws)
 * is `None`.
 */
module Oracle {
  import opened Wrappers

  /** The two sides, as the components name them ('white' / 'black'). */
  datatype Player = White | Black

  function Opponent(p: Player): (q: Player)
    ensures q != p
  {
    if p == White then Black else White
  }

  /** chess.js reports a colour as a character; the components read 'w' as white and anything else as black. */
  function PlayerOf(c: char): (p: Player)
    ensures p == White <==> c == 'w'
  {
    if c == 'w' then White else Black
  }

  /** The argument of `Chess.move`. */
  datatype MoveRequest = MoveRequest(from: string, to: string, promotion: char)

  /** The components always ask for promotion to a queen. */
  const Promotion: char := 'q'

  /**
   * What chess.js reports for an accepted move: its algebraic notation, the
   * captured piece if there was one, the colour of the side that moved, and
   * the position the board object is in afterwards.
   */
  datatype MoveInfo<P> = MoveInfo(san: string, captured: Option<string>, color: char, after: P)

  datatype Rules<!P> = Rules(
    start: P,                                   // new Chess()
    load: string -> P,                          // new Chess(fen)
    fen: P -> string,                           // game.fen()
    move: (P, MoveRequest) -> Option<MoveInfo<P>>,
    turn: P -> char,
    isCheckmate: P -> bool,
    isDraw: P -> bool,
    isStalemate: P -> bool,
    isCheck: P -> bool)
  {
    /**
     * A move tried the way both components try one: on a fresh board loaded
     * from the current position's FEN, promoting to a queen.  The current
     * position itself is a value and is never touched.
     */
    function TryMove(pos: P, from: string, to: string): Option<MoveInfo<P>>
    {
      move(load(fen(pos)), MoveRequest(from, to, Promotion))
    }
  }
}
