/**
 * The game session of the `ChessBoard` component: its state fields, the
 * move callback, New Game, time-up, the timed/untimed switch and the status
 * badge, with the `DualChessTimer` it shows in timed mode.
 */
module ChessBoard {
  import opened Wrappers
  import opened Oracle
  import opened ChessTimer

  datatype Status = Playing | Checkmate | Draw | Stalemate

  datatype Mode = Untimed | Timed

  /** Both sides start with five minutes. */
  const StartingTime: nat := 300

  function Toggled(m: Mode): (r: Mode)
    ensures r != m
  {
    if m == Untimed then Timed else Untimed
  }

  /** Switching the mode twice gives back the mode one started with. */
  lemma ToggleTwice(m: Mode)
    ensures Toggled(Toggled(m)) == m
  {
  }

  // ---------------------------------------------------------------------
  // The effect of one move on the session fields, as a value
  // ---------------------------------------------------------------------

  /** The session fields a move can change. */
  datatype Board<P> = Board(
    game: P,
    position: string,
    history: seq<string>,
    status: Status,
    current: Player,
    capturedWhite: seq<string>,
    capturedBlack: seq<string>)

  /** The status after an accepted move: checkmate before draw before stalemate; otherwise it is kept. */
  function StatusAfter<P>(rules: Rules<P>, pos: P, prior: Status): Status
  {
    if rules.isCheckmate(pos) then Checkmate
    else if rules.isDraw(pos) then Draw
    else if rules.isStalemate(pos) then Stalemate
    else prior
  }

  /** The captured material is at most one piece per recorded move. */
  predicate LedgerFits<P>(b: Board<P>)
  {
    |b.capturedWhite| + |b.capturedBlack| <= |b.history|
  }

  /** The fields after chess.js has accepted move `m`. */
  function Accept<P>(rules: Rules<P>, b: Board<P>, m: MoveInfo<P>): Board<P>
  {
    var mover := PlayerOf(m.color);
    var white := if m.captured.Some? && mover == White then b.capturedWhite + [m.captured.value] else b.capturedWhite;
    var black := if m.captured.Some? && mover == Black then b.capturedBlack + [m.captured.value] else b.capturedBlack;
    Board(m.after, rules.fen(m.after), b.history + [m.san],
          StatusAfter(rules, m.after, b.status), PlayerOf(rules.turn(m.after)), white, black)
  }

  /**
   * The move callback on a board value: `None` when chess.js refuses the
   * move, otherwise the new fields.
   */
  function AfterMove<P>(rules: Rules<P>, b: Board<P>, from: string, to: string): (r: Option<Board<P>>)
    ensures r.None? <==> rules.TryMove(b.game, from, to).None?
    ensures r.Some? ==>
      var m, n := rules.TryMove(b.game, from, to).value, r.value;
      && n.game == m.after
      && n.position == rules.fen(m.after)
      && n.history == b.history + [m.san]
      && n.current == PlayerOf(rules.turn(m.after))
      && (rules.isCheckmate(m.after) ==> n.status == Checkmate)
      && (!rules.isCheckmate(m.after) && rules.isDraw(m.after) ==> n.status == Draw)
      && (!rules.isCheckmate(m.after) && !rules.isDraw(m.after) && rules.isStalemate(m.after) ==> n.status == Stalemate)
      && (!rules.isCheckmate(m.after) && !rules.isDraw(m.after) && !rules.isStalemate(m.after) ==> n.status == b.status)
      && (m.captured.None? ==> n.capturedWhite == b.capturedWhite && n.capturedBlack == b.capturedBlack)
      && (m.captured.Some? && PlayerOf(m.color) == White ==>
            n.capturedWhite == b.capturedWhite + [m.captured.value] && n.capturedBlack == b.capturedBlack)
      && (m.captured.Some? && PlayerOf(m.color) == Black ==>
            n.capturedBlack == b.capturedBlack + [m.captured.value] && n.capturedWhite == b.capturedWhite)
  {
    match rules.TryMove(b.game, from, to)
    case None => None
    case Some(m) => Some(Accept(rules, b, m))
  }

  /** What chess.js says about check never changes the session: check only raises a notification. */
  lemma CheckIsAdvisory<P>(rules: Rules<P>, isCheck: P -> bool, b: Board<P>, from: string, to: string)
    ensures AfterMove(rules.(isCheck := isCheck), b, from, to) == AfterMove(rules, b, from, to)
  {
  }

  /** Once the game has left 'playing', no move brings it back; a new game is the only way. */
  lemma NoMoveRevivesAGame<P>(rules: Rules<P>, b: Board<P>, from: string, to: string)
    requires b.status != Playing && AfterMove(rules, b, from, to).Some?
    ensures AfterMove(rules, b, from, to).value.status != Playing
  {
  }

  /** A player's tried squares. */
  datatype Attempt = Attempt(from: string, to: string)

  /** The board after a series of attempts, refused ones leaving it as it was. */
  function Replay<P>(rules: Rules<P>, b: Board<P>, attempts: seq<Attempt>): Board<P>
    decreases |attempts|
  {
    if attempts == [] then b
    else
      var next := match AfterMove(rules, b, attempts[0].from, attempts[0].to)
                  case None => b
                  case Some(n) => n;
      Replay(rules, next, attempts[1..])
  }

  /** How many attempts of a series chess.js accepts. */
  function Accepted<P>(rules: Rules<P>, b: Board<P>, attempts: seq<Attempt>): nat
    decreases |attempts|
  {
    if attempts == [] then 0
    else match AfterMove(rules, b, attempts[0].from, attempts[0].to)
      case None => Accepted(rules, b, attempts[1..])
      case Some(n) => 1 + Accepted(rules, n, attempts[1..])
  }

  /**
   * The history holds one entry per accepted move, and the history and both
   * capture lists only ever grow at the end; the material ledger stays
   * within one piece per move.
   */
  lemma {:induction false} ReplayLedger<P>(rules: Rules<P>, b: Board<P>, attempts: seq<Attempt>)
    ensures var r := Replay(rules, b, attempts);
      && |r.history| == |b.history| + Accepted(rules, b, attempts)
      && b.history <= r.history
      && b.capturedWhite <= r.capturedWhite
      && b.capturedBlack <= r.capturedBlack
      && (LedgerFits(b) ==> LedgerFits(r))
    decreases |attempts|
  {
    if attempts != [] {
      match AfterMove(rules, b, attempts[0].from, attempts[0].to)
      case None =>
        ReplayLedger(rules, b, attempts[1..]);
      case Some(n) =>
        ReplayLedger(rules, n, attempts[1..]);
    }
  }

  // ---------------------------------------------------------------------
  // The status badge
  // ---------------------------------------------------------------------

  function PlayerName(p: Player): string
  {
    if p == White then "White" else "Black"
  }

  /** `getGameStatusDisplay`, given the status, the side to move and whether it is in check. */
  function StatusDisplay(status: Status, current: Player, inCheck: bool): (d: string)
    ensures 13 <= |d|
    ensures status == Checkmate ==> |d| == 21 && d[..11] == "Checkmate! " && d[11..16] == PlayerName(Opponent(current))
    ensures status == Playing ==> d[..5] == PlayerName(current) && (inCheck <==> |d| == 17)
  {
    match status
    case Checkmate => "Checkmate! " + PlayerName(Opponent(current)) + " wins"
    case Draw => "Game ended in a draw"
    case Stalemate => "Stalemate - Draw"
    case Playing => PlayerName(current) + (if inCheck then " is in check" else " to move")
  }

  /**
   * The badge text can be read back: it names the status, the winner of a
   * checkmate, and during play the side to move and whether it is in check.
   */
  lemma StatusDisplayInjective(s1: Status, p1: Player, c1: bool, s2: Status, p2: Player, c2: bool)
    requires StatusDisplay(s1, p1, c1) == StatusDisplay(s2, p2, c2)
    ensures s1 == s2
    ensures s1 == Checkmate || s1 == Playing ==> p1 == p2
    ensures s1 == Playing ==> c1 == c2
  {
    var d := StatusDisplay(s1, p1, c1);
    match s1
    case Checkmate =>
      assert d[11] == PlayerName(Opponent(p1))[0] && d[0] == 'C';
    case Draw =>
      assert d[0] == 'G';
    case Stalemate =>
      assert d[0] == 'S' && |d| == 16;
    case Playing =>
      assert d[0] == PlayerName(p1)[0] && |d| == if c1 then 17 else 13;
  }

  // ---------------------------------------------------------------------
  // The session
  // ---------------------------------------------------------------------

  class Session<P> {
    const rules: Rules<P>
    var game: P
    var gamePosition: string
    var moveHistory: seq<string>
    var gameStatus: Status
    var currentPlayer: Player
    var capturedWhite: seq<string>
    var capturedBlack: seq<string>
    var gameMode: Mode
    var whiteTime: nat
    var blackTime: nat
    /** The `DualChessTimer`, present exactly while the board is in timed mode. */
    var timer: DualTimer?
    ghost var Repr: set<object>

    /** The fields and the timer hang together, except for the timer's props. */
    ghost predicate Structure()
      reads this, Repr
    {
      && this in Repr
      && Repr == {this} + (if timer == null then {} else {timer, timer.black, timer.white})
      && gamePosition == rules.fen(game)
      && LedgerFits(State())
      && (timer == null <==> gameMode == Untimed)
      && (timer != null ==> timer.Valid())
    }

    /** ... and the timer is told whose turn it is and whether the game is live (`gameStatus === 'playing'`). */
    ghost predicate Valid()
      reads this, Repr
    {
      Structure() && (timer != null ==> timer.currentPlayer == currentPlayer && timer.gameActive == (gameStatus == Playing))
    }

    function State(): Board<P>
      reads this
    {
      Board(game, gamePosition, moveHistory, gameStatus, currentPlayer, capturedWhite, capturedBlack)
    }

    /** The first render: the initial position, white to move, untimed, five minutes a side. */
    constructor (rules: Rules<P>)
      ensures Valid() && fresh(Repr)
      ensures this.rules == rules
      ensures State() == Board(rules.start, rules.fen(rules.start), [], Playing, White, [], [])
      ensures gameMode == Untimed && timer == null
      ensures whiteTime == StartingTime && blackTime == StartingTime
    {
      this.rules := rules;
      game := rules.start;
      gamePosition := rules.fen(rules.start);
      moveHistory := [];
      gameStatus := Playing;
      currentPlayer := White;
      capturedWhite := [];
      capturedBlack := [];
      gameMode := Untimed;
      whiteTime := StartingTime;
      blackTime := StartingTime;
      timer := null;
      Repr := {this};
    }

    /** The re-render after a state change: the timer receives the new props. */
    method SyncTimer()
      requires Structure()
      modifies Repr - {this}
      ensures Valid()
      ensures timer != null ==>
        timer.black.timeLeft == old(timer.black.timeLeft) && timer.white.timeLeft == old(timer.white.timeLeft)
    {
      if timer != null {
        timer.SetProps(currentPlayer, gameStatus == Playing);
      }
    }

    /**
     * `makeMove`: the move is tried on a copy of the position; only an
     * accepted move changes anything.  There is no check of the status:
     * after a time-up any move chess.js accepts is still made.
     */
    method MakeMove(from: string, to: string) returns (ok: bool)
      requires Valid()
      modifies Repr
      ensures Valid() && Repr == old(Repr) && timer == old(timer)
      ensures gameMode == old(gameMode) && whiteTime == old(whiteTime) && blackTime == old(blackTime)
      ensures ok == AfterMove(rules, old(State()), from, to).Some?
      ensures ok ==> State() == AfterMove(rules, old(State()), from, to).value
      ensures !ok ==> unchanged(Repr)
      ensures timer != null ==>
        timer.black.timeLeft == old(timer.black.timeLeft) && timer.white.timeLeft == old(timer.white.timeLeft)
    {
      var move := rules.TryMove(game, from, to);
      if move.None? {
        return false;
      }
      Record(move.value);
      SyncTimer();
      ok := true;
    }

    /** The setters `makeMove` runs for an accepted move, in the order it runs them. */
    method Record(m: MoveInfo<P>)
      requires LedgerFits(State())
      modifies this`game, this`gamePosition, this`moveHistory, this`gameStatus, this`currentPlayer,
        this`capturedWhite, this`capturedBlack
      ensures State() == Accept(rules, old(State()), m)
      ensures gamePosition == rules.fen(game) && LedgerFits(State())
    {
      game := m.after;
      gamePosition := rules.fen(m.after);
      moveHistory := moveHistory + [m.san];
      currentPlayer := PlayerOf(rules.turn(m.after));
      if rules.isCheckmate(m.after) {
        gameStatus := Checkmate;
      } else if rules.isDraw(m.after) {
        gameStatus := Draw;
      } else if rules.isStalemate(m.after) {
        gameStatus := Stalemate;
      }
      if m.captured.Some? {
        if m.color == 'w' {
          capturedWhite := capturedWhite + [m.captured.value];
        } else {
          capturedBlack := capturedBlack + [m.captured.value];
        }
      }
    }

    /** `resetGame`: a fresh game; a mounted timer keeps the time its clocks show. */
    method ResetGame()
      requires Valid()
      modifies this`game, this`gamePosition, this`moveHistory, this`gameStatus, this`currentPlayer,
        this`capturedWhite, this`capturedBlack, this`whiteTime, this`blackTime, Repr - {this}
      ensures Valid() && Repr == old(Repr) && timer == old(timer) && gameMode == old(gameMode)
      ensures State() == Board(rules.start, rules.fen(rules.start), [], Playing, White, [], [])
      ensures whiteTime == StartingTime && blackTime == StartingTime
      ensures timer != null ==>
        timer.black.timeLeft == old(timer.black.timeLeft) && timer.white.timeLeft == old(timer.white.timeLeft)
    {
      Restart();
      SyncTimer();
    }

    /** The setters `resetGame` runs, in the order it runs them. */
    method Restart()
      modifies this`game, this`gamePosition, this`moveHistory, this`gameStatus, this`currentPlayer,
        this`capturedWhite, this`capturedBlack, this`whiteTime, this`blackTime
      ensures State() == Board(rules.start, rules.fen(rules.start), [], Playing, White, [], [])
      ensures gamePosition == rules.fen(game) && LedgerFits(State())
      ensures whiteTime == StartingTime && blackTime == StartingTime
    {
      game := rules.start;
      gamePosition := rules.fen(rules.start);
      moveHistory := [];
      gameStatus := Playing;
      currentPlayer := White;
      capturedWhite := [];
      capturedBlack := [];
      whiteTime := StartingTime;
      blackTime := StartingTime;
    }

    /** `handleTimeUp`: the game ends as 'checkmate' whatever its status, and no clock runs any more. */
    method HandleTimeUp(player: Player)
      requires Valid()
      modifies this`gameStatus, Repr - {this}
      ensures Valid() && Repr == old(Repr) && timer == old(timer) && gameMode == old(gameMode)
      ensures whiteTime == old(whiteTime) && blackTime == old(blackTime)
      ensures State() == old(State()).(status := Checkmate)
      ensures timer != null ==> timer.RunningSide() == None
      ensures timer != null ==>
        timer.black.timeLeft == old(timer.black.timeLeft) && timer.white.timeLeft == old(timer.white.timeLeft)
    {
      gameStatus := Checkmate;
      SyncTimer();
    }

    /**
     * `toggleGameMode`: timed and untimed swap.  Entering timed mode mounts a
     * new pair of clocks holding `whiteTime` and `blackTime`; leaving it
     * unmounts them.
     */
    method ToggleGameMode()
      requires Valid()
      modifies this
      ensures Valid() && fresh(Repr - old(Repr))
      ensures gameMode == Toggled(old(gameMode))
      ensures State() == old(State()) && whiteTime == old(whiteTime) && blackTime == old(blackTime)
      ensures timer != null ==>
        fresh(timer) && fresh(timer.black) && fresh(timer.white)
        && timer.white.timeLeft == whiteTime && timer.black.timeLeft == blackTime
    {
      if gameMode == Untimed {
        gameMode := Timed;
        timer := new DualTimer(whiteTime, blackTime, 0, currentPlayer, gameStatus == Playing);
        Repr := {this, timer, timer.black, timer.white};
      } else {
        gameMode := Untimed;
        timer := null;
        Repr := {this};
      }
    }

    /**
     * One second of the mounted timer: only the clock of the side to move
     * counts down, and only while the game is live; the tick that empties it
     * ends the game through `handleTimeUp`.
     */
    method Tick() returns (expired: Option<Player>)
      requires Valid()
      modifies Repr
      ensures Valid() && Repr == old(Repr) && timer == old(timer) && gameMode == old(gameMode)
      ensures whiteTime == old(whiteTime) && blackTime == old(blackTime)
      ensures timer == null ==> expired == None && unchanged(this)
      ensures timer != null ==>
        && timer.ClockOf(currentPlayer).timeLeft
             == TickTime(old(timer.ClockOf(currentPlayer).timeLeft), old(gameStatus) == Playing)
        && timer.ClockOf(Opponent(currentPlayer)).timeLeft == old(timer.ClockOf(Opponent(currentPlayer)).timeLeft)
      ensures expired.Some? <==>
        timer != null && TimeUpOnTick(old(timer.ClockOf(currentPlayer).timeLeft), old(gameStatus) == Playing)
      ensures expired.Some? ==>
        && old(gameStatus) == Playing
        && expired.value == currentPlayer
        && State() == old(State()).(status := Checkmate)
        && timer.RunningSide() == None
      ensures expired.None? ==> State() == old(State())
    {
      expired := None;
      if timer != null {
        expired := timer.Tick();
        if expired.Some? {
          HandleTimeUp(expired.value);
        }
      }
    }

    /** The status badge; its text determines the status it reports. */
    function GetGameStatusDisplay(): (d: string)
      reads this
      ensures d == StatusDisplay(gameStatus, currentPlayer, rules.isCheck(game))
      ensures forall s: Status, p: Player, c: bool :: StatusDisplay(s, p, c) == d ==> s == gameStatus
    {
      DisplayDeterminesStatus(gameStatus, currentPlayer, rules.isCheck(game));
      StatusDisplay(gameStatus, currentPlayer, rules.isCheck(game))
    }
  }

  lemma DisplayDeterminesStatus(status: Status, current: Player, inCheck: bool)
    ensures forall s: Status, p: Player, c: bool ::
      StatusDisplay(s, p, c) == StatusDisplay(status, current, inCheck) ==> s == status
  {
    forall s: Status, p: Player, c: bool | StatusDisplay(s, p, c) == StatusDisplay(status, current, inCheck)
      ensures s == status
    {
      StatusDisplayInjective(s, p, c, status, current, inCheck);
    }
  }
}
