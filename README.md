# Chess session, puzzle trainer and clocks

This project models the three state machines of the Chess Master web app
and proves their properties in Dafny:

- the game session of `ChessBoard`: its move callback, New Game, time-up,
  the timed/untimed switch and the status badge;
- the puzzle trainer of `ChessPuzzle`: moves checked against a solution,
  Reset, Next Puzzle and the hint;
- the countdown clock `ChessTimer` and the pair of clocks `DualChessTimer`.

Each component's `useState` fields are the fields of a class, and each
callback is a method. The React effects that follow a state change run at
the end of the method that makes the change. These are the timer's props
and `setIsRunning`. The once-a-second `setInterval` body is an explicit
`Tick()`.

The chess rules come from chess.js and are not modelled. `Oracle.Rules<P>`
stands in for them: a value of total functions over an opaque position
type `P`. It holds the initial position, loading and printing FEN, `move`
(which gives `None` when chess.js refuses a move, by returning null or by
throwing), `turn`, `isCheckmate`, `isDraw`, `isStalemate` and `isCheck`.
Every lemma holds for every such oracle. Both components try a move on a
board loaded from `game.fen()`, always promoting to a queen
(`Rules.TryMove`).

Files: `wrappers.dfy` (Option), `text.dfy` (the JavaScript string
operations used: `toString`, `padStart(2, '0')`, `slice`; and `IndexOf`,
a first-index search that no component calls and that only `ParseTime`
uses),
`oracle.dfy`, `chess_timer.dfy`, `chess_board.dfy`, `chess_puzzle.dfy`.

Notes on what the code does:

- `makeMove` has no terminal-status guard. After a time-up sets 'checkmate',
  any move chess.js accepts is still made. A later draw or stalemate flag
  can even replace the 'checkmate'.
- The status precedence is checkmate, then draw, then stalemate. There is no
  separate "check" status: check only raises a notification
  (`CheckIsAdvisory`).
- A puzzle move is appended to `playerMoves` before it is compared, so a
  wrong first move fails the attempt with that one move recorded
  (`WrongFirstMoveFails`).
- When the mode becomes timed while the game is 'playing', the clock of the
  side to move runs at once. After a checkmate, draw or time-up no clock runs.
- A clock started at 60 seconds reaches zero and calls `onTimeUp` on its
  60th running tick. Later ticks change nothing (`TimeAfterTrace`,
  `TimeUpAtMostOnce`).
- New Game sets `whiteTime`/`blackTime` to 300, but a mounted
  `ChessTimer` reads `initialTime` only when it mounts. So New Game in
  timed mode leaves both clocks at the time they show, and
  `Session.ResetGame` states this. A clock that ran out stays at zero and
  never calls `onTimeUp` again in the new game.

`ChessTimer.ParseTime` is not part of the app. It reads a clock face back,
and `FormatTime` is proved against it.

Observation on the sample puzzles (components/chess/ChessPuzzle.tsx:35-54).
As their FENs read, in sample 1, d7 holds
a black pawn, so the queen on d8 cannot reach d4; sample 2 has no piece on
d8 at all, so d8h4 is not a move. chess.js therefore refuses the first
solution move of both samples, and neither can be solved in the app. The
puzzle lemmas are about the verdict over moves chess.js accepts, so they are
unaffected; legality is the oracle's business and is not modelled.

## Model

| member | source | states |
|---|---|---|
| `Oracle.PlayerOf` | components/chess/ChessBoard.tsx:51 | chess.js colour 'w' maps to white; every other colour maps to black |
| `Text.Decimal` | components/chess/ChessTimer.tsx:59 | `toString` of a non-negative integer gives decimal digits with no leading zero, denoting that number; one digit below 10, two below 100 |
| `Text.PadStart2` | components/chess/ChessTimer.tsx:59 | `padStart(2, '0')` gives at least two characters: the original string preceded only by zeros |
| `Text.PadStart2Value` | components/chess/ChessTimer.tsx:59 | padding a digit string keeps it a digit string with the same value |
| `Text.Slice` | components/chess/ChessPuzzle.tsx:276-280 | `slice` with in-range bounds is the subsequence; an end past the length is clamped to it; an empty range or a begin at or past the length gives "" |
| `Text.SliceSplit` | components/chess/ChessPuzzle.tsx:276-280 | two adjacent slices concatenate to the slice spanning both |
| `ChessTimer.TickTime` | components/chess/ChessTimer.tsx:37-47 | an interval tick happens only when running with time left, and then takes exactly one second; time never rises and never goes below zero |
| `ChessTimer.TimeUpOnTick` | components/chess/ChessTimer.tsx:37-45 | `onTimeUp` fires exactly on a running tick from 1 second, and that tick leaves 0 |
| `ChessTimer.TimeAfterTrace` | components/chess/ChessTimer.tsx:37-47 | after any sequence of ticks, the time is the start minus the running ticks, floored at 0; non-running ticks change nothing |
| `ChessTimer.TimeUpAtMostOnce` | components/chess/ChessTimer.tsx:37-47 | over any sequence of ticks `onTimeUp` fires at most once, exactly when a positive start is used up |
| `ChessTimer.FormatTime` | components/chess/ChessTimer.tsx:56-60 | the face is a colon with at least two characters before it and exactly two seconds characters after it; it is exactly 5 characters below 6000 seconds |
| `ChessTimer.FormatTimeRoundTrip` | components/chess/ChessTimer.tsx:56-60 | reading the face back gives the time: 60 × minutes field + seconds field, with seconds < 60 |
| `ChessTimer.TimerColorOf` | components/chess/ChessTimer.tsx:62-66 | red exactly at 30 s or less, yellow exactly above 30 s up to 60 s, the default colour exactly above 60 s |
| `ChessTimer.ColorMonotone` | components/chess/ChessTimer.tsx:62-66 | less time never gives a calmer colour (red ≤ 30 s, yellow ≤ 60 s, default above) |
| `ChessTimer.Clock.constructor` | components/chess/ChessTimer.tsx:25-32 | a mounted clock holds `initialTime` and runs exactly when active and current |
| `ChessTimer.Clock.SetProps` | components/chess/ChessTimer.tsx:30-32 | after a prop change `isRunning` equals `isActive && isCurrentPlayer`; the time is kept |
| `ChessTimer.Clock.Tick` | components/chess/ChessTimer.tsx:34-54 | one interval firing: the new time is `TickTime`, `onTimeUp` is `TimeUpOnTick`, and a clock at 0 never fires; `increment` is not used |
| `ChessTimer.Clock.Face` | components/chess/ChessTimer.tsx:97 | the displayed face reads back as the clock's time |
| `ChessTimer.Clock.ShowsLowTime` | components/chess/ChessTimer.tsx:107-113 | "LOW TIME!" shows exactly when the clock runs with 10 s or less; a clock showing it is always red |
| `ChessTimer.Clock.Pulses` | components/chess/ChessTimer.tsx:77-79 | the card pulses exactly when the clock runs and shows red |
| `ChessTimer.Clock.Highlighted` | components/chess/ChessTimer.tsx:71-75 | the card is highlighted exactly while the clock runs |
| `ChessTimer.DualTimer.RunningSide` | components/chess/ChessTimer.tsx:138-154 | the two clocks never run together; one runs exactly when the game is active, and it is the current player's |
| `ChessTimer.DualTimer.constructor` | components/chess/ChessTimer.tsx:119-157 | two distinct fresh clocks holding `whiteTime` and `blackTime`, sharing `gameActive`, with exactly one current |
| `ChessTimer.DualTimer.SetProps` | components/chess/ChessTimer.tsx:138-154 | new current player and activity reach both clocks; their times are kept |
| `ChessTimer.DualTimer.Tick` | components/chess/ChessTimer.tsx:138-154 | only the current player's clock can count down; the other keeps its time; an expiry reports the expired clock's own colour, and that clock shows 0 |
| `ChessBoard.Toggled` | components/chess/ChessBoard.tsx:142 | the new mode always differs from the old one |
| `ChessBoard.ToggleTwice` | components/chess/ChessBoard.tsx:141-143 | switching the mode twice restores it |
| `ChessBoard.AfterMove` | components/chess/ChessBoard.tsx:34-107 | a refused move gives nothing. An accepted move sets the new position, appends exactly its SAN, and takes the side to move from chess.js. Status: checkmate, else draw, else stalemate, else unchanged. A captured piece goes on the mover's list only; with no capture both lists stay |
| `ChessBoard.CheckIsAdvisory` | components/chess/ChessBoard.tsx:78-84 | what chess.js says about check has no effect on the session state |
| `ChessBoard.NoMoveRevivesAGame` | components/chess/ChessBoard.tsx:54-77 | no move returns a finished game to 'playing' |
| `ChessBoard.ReplayLedger` | components/chess/ChessBoard.tsx:48-96 | over any series of attempts, the history grows by exactly the accepted count. History and both capture lists only grow at the end, and the capture total stays within the history length |
| `ChessBoard.StatusDisplay` | components/chess/ChessBoard.tsx:152-163 | checkmate: "Checkmate! " and then the side not to move as winner; during play: the side to move's name first, and the longer " is in check" text exactly when in check; every text has at least 13 characters (`StatusDisplayInjective` separates the draw and stalemate texts) |
| `ChessBoard.StatusDisplayInjective` | components/chess/ChessBoard.tsx:152-163 | the badge text determines the status, the side named for a checkmate or during play, and the check flag during play |
| `ChessBoard.DisplayDeterminesStatus` | components/chess/ChessBoard.tsx:152-163 | no other status gives the same badge text |
| `ChessBoard.Session.GetGameStatusDisplay` | components/chess/ChessBoard.tsx:152-163 | the badge is `StatusDisplay` of the session's status, side to move and chess.js's check flag on the current position, and its text determines the status |
| `ChessBoard.Session.constructor` | components/chess/ChessBoard.tsx:18-29 | initial position, empty history and capture lists, 'playing', white to move, untimed, 300 s each |
| `ChessBoard.Session.MakeMove` | components/chess/ChessBoard.tsx:34-107 | returns whether chess.js accepted the move. An accepted move gives the `AfterMove` state. A refused one changes nothing, timer included. There is no status guard, and clocks keep their time |
| `ChessBoard.Session.ResetGame` | components/chess/ChessBoard.tsx:113-129 | empty history and capture lists, 'playing', white to move, 300 s each, the initial position. The mode is kept, and a mounted timer keeps its clocks' times |
| `ChessBoard.Session.HandleTimeUp` | components/chess/ChessBoard.tsx:131-139 | the status becomes 'checkmate' whatever it was, nothing else changes, and no clock runs afterwards |
| `ChessBoard.Session.ToggleGameMode` | components/chess/ChessBoard.tsx:141-150 | the mode flips, and the game is untouched. Entering timed mode mounts fresh clocks holding `whiteTime`/`blackTime` |
| `ChessBoard.Session.Tick` | components/chess/ChessBoard.tsx:232-241 | only the side to move's clock counts, and only while 'playing'. The emptying tick reports that side and ends the game as 'checkmate', with no clock running; any other tick leaves the game unchanged |
| `ChessPuzzle.Judge` | components/chess/ChessPuzzle.tsx:105-134 | a legal move is appended, then judged. The result is solved exactly when the moves equal the solution and failed exactly when they stop being a prefix of it; consistency is preserved |
| `ChessPuzzle.ReplayConsistent` | components/chess/ChessPuzzle.tsx:91-142 | any series of moves keeps the verdict consistent with the moves, and recorded moves only grow |
| `ChessPuzzle.ReplayRestSolves` | components/chess/ChessPuzzle.tsx:117-127 | from any point of the solution, playing the rest of it solves the puzzle |
| `ChessPuzzle.ReplaySolutionSolves` | components/chess/ChessPuzzle.tsx:117-127 | the verdict: if chess.js accepts every solution move in turn, playing the whole solution from the start ends solved with exactly the solution recorded |
| `ChessPuzzle.WrongFirstMoveFails` | components/chess/ChessPuzzle.tsx:106-132 | a wrong first move fails at once, with that move recorded; later moves are ignored |
| `ChessPuzzle.FindIndex` | components/chess/ChessPuzzle.tsx:80 | the index of the first puzzle with that id, or -1 exactly when none has it |
| `ChessPuzzle.NextIndex` | components/chess/ChessPuzzle.tsx:80 | the next index is in range: the following one, 0 after the last, and 0 for an unknown id |
| `ChessPuzzle.SamplesAlternate` | components/chess/ChessPuzzle.tsx:35-54 | with the two sample puzzles, Next Puzzle goes 1 → 2 → 1, and an unknown id gives the first |
| `ChessPuzzle.HintFrom` | components/chess/ChessPuzzle.tsx:276 | present exactly when there is a solution move: its first two characters (`slice(0, 2)`), or the whole move when shorter |
| `ChessPuzzle.HintTo` | components/chess/ChessPuzzle.tsx:280 | present exactly when there is a solution move: characters 2 to 4 of it (`slice(2, 4)`), clamped; with the origin it spells the move's first four characters |
| `ChessPuzzle.HintRecomposes` | components/chess/ChessPuzzle.tsx:276-280 | for a four-character first move, the two hint squares put together are that move |
| `ChessPuzzle.PuzzleSession.constructor` | components/chess/ChessPuzzle.tsx:56-64 | the given puzzle, or the first sample, at its FEN; nothing played, 'playing', hint hidden |
| `ChessPuzzle.PuzzleSession.OnDrop` | components/chess/ChessPuzzle.tsx:91-142 | accepted exactly when 'playing' and chess.js accepts. Otherwise nothing changes. An accepted move is appended and judged, and `moveCount` rises by 1. `onSolved` is reported exactly on solving, with `moveCount + 1`. The invariants moveCount = number of moves and verdict consistency are kept |
| `ChessPuzzle.PuzzleSession.ResetPuzzle` | components/chess/ChessPuzzle.tsx:68-76 | same puzzle, reloaded from its FEN; nothing played, 'playing', hint hidden, count 0 |
| `ChessPuzzle.PuzzleSession.NextPuzzle` | components/chess/ChessPuzzle.tsx:78-89 | the sample at `NextIndex`, loaded from its FEN; nothing played, 'playing', hint hidden, count 0 |
| `ChessPuzzle.PuzzleSession.ToggleHint` | components/chess/ChessPuzzle.tsx:234 | the hint flag flips and nothing else changes |

## Left out

- The chess rules (legality, SAN, check, mate and draw detection) belong to chess.js, a foreign library. They are the abstract `Rules` oracle. In chess.js `isDraw` covers stalemate, so the stalemate branch may never be taken; the precedence is modelled as written.
- Rendering (react-chessboard, cards, badges), toasts and `console.log` are UI and advisory output. The toasts read a possibly stale `currentPlayer`.
- `onGameStateChange` in `makeMove` is an optional callback into the page; it is not modelled.
- Wall-clock scheduling (`setInterval`/`clearInterval`) and the React effect lifecycle become explicit `Tick()` calls. Effects run at the end of the method that causes them; no timing or concurrency is modelled. The intervals of the two clocks are ticked together, black then white.
- Clock `initialTime` is a `nat`: the component receives only 300 (or 60), never a negative or fractional number.
- React batching is not modelled. The Blitz, Bullet and Classical quick actions set the mode and times and then call `resetGame`, so in the source even Bullet ends at 300 s. These buttons are not modelled.
- The puzzle `progressPercentage` uses floating-point division and is not modelled. The `getDifficultyColor` CSS classes, the status icons and the fixed statistics panel are display-only.
- The "+Ns per move" line of a clock (components/chess/ChessTimer.tsx:99-103) only displays `increment`; it is display-only, and `Clock.Tick` never adds the increment.
- Resign, Multiplayer, Settings and "vs AI" are disabled buttons with no behaviour.
- The landing page, header, mode selector, layout and screen navigation are static content and routing.
