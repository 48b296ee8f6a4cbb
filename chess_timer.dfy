/**
 * The countdown clock of one side (`ChessTimer`) and the pair of clocks the
 * board shows in timed mode (`DualChessTimer`).  The once-a-second interval
 * is an explicit `Tick`; the effect that keeps `isRunning` in step with the
 * props runs inside the method that changes them.
 */
module ChessTimer {
  import opened Wrappers
  import opened Text
  import opened Oracle

  // ---------------------------------------------------------------------
  // The interval body, as a function of the clock's time and running flag
  // ---------------------------------------------------------------------

  /** The effect installs the interval only while the clock runs and has time left. */
  predicate Scheduled(timeLeft: int, running: bool) {
    running && timeLeft > 0
  }

  /** The time after one interval firing (or the same time when none is scheduled). */
  function TickTime(timeLeft: int, running: bool): (t: int)
    ensures t <= timeLeft
    ensures timeLeft >= 0 ==> t >= 0
    ensures t == if Scheduled(timeLeft, running) then timeLeft - 1 else timeLeft
  {
    if !Scheduled(timeLeft, running) then timeLeft
    else if timeLeft - 1 <= 0 then 0
    else timeLeft - 1
  }

  /** Whether `onTimeUp` is called during that firing: exactly the tick from one second to zero. */
  predicate TimeUpOnTick(timeLeft: int, running: bool): (up: bool)
    ensures up <==> running && timeLeft == 1
    ensures up ==> TickTime(timeLeft, running) == 0
  {
    Scheduled(timeLeft, running) && timeLeft - 1 <= 0
  }

  /** How many of the ticks in a trace found the clock running. */
  function RunningTicks(trace: seq<bool>): (n: nat)
    ensures n <= |trace|
  {
    if trace == [] then 0 else (if trace[0] then 1 else 0) + RunningTicks(trace[1..])
  }

  /** The time after a trace of ticks; `trace[k]` is whether the clock ran at tick `k`. */
  function TimeAfter(timeLeft: int, trace: seq<bool>): int
  {
    if trace == [] then timeLeft else TimeAfter(TickTime(timeLeft, trace[0]), trace[1..])
  }

  /** How many times `onTimeUp` is called along a trace of ticks. */
  function TimeUps(timeLeft: int, trace: seq<bool>): nat
  {
    if trace == [] then 0
    else (if TimeUpOnTick(timeLeft, trace[0]) then 1 else 0) + TimeUps(TickTime(timeLeft, trace[0]), trace[1..])
  }

  /** Each running tick takes one second off until the clock stands at zero; other ticks change nothing. */
  lemma {:induction false} TimeAfterTrace(timeLeft: nat, trace: seq<bool>)
    ensures TimeAfter(timeLeft, trace) == if RunningTicks(trace) >= timeLeft then 0 else timeLeft - RunningTicks(trace)
  {
    if trace != [] {
      TimeAfterTrace(TickTime(timeLeft, trace[0]), trace[1..]);
    }
  }

  /** `onTimeUp` fires at most once, and exactly when the running ticks use up a positive starting time. */
  lemma {:induction false} TimeUpAtMostOnce(timeLeft: nat, trace: seq<bool>)
    ensures TimeUps(timeLeft, trace) == if timeLeft > 0 && RunningTicks(trace) >= timeLeft then 1 else 0
  {
    if trace != [] {
      TimeUpAtMostOnce(TickTime(timeLeft, trace[0]), trace[1..]);
    }
  }

  // ---------------------------------------------------------------------
  // Display: formatTime, getTimerColor
  // ---------------------------------------------------------------------

  /** `formatTime`: minutes and seconds, each padded to two digits, joined by a colon. */
  function FormatTime(seconds: nat): (r: string)
    ensures |r| >= 5 && r[|r| - 3] == ':'
    ensures seconds < 6000 ==> |r| == 5
  {
    PadStart2(Decimal(seconds / 60)) + ":" + PadStart2(Decimal(seconds % 60))
  }

  /**
   * Reads a clock face back: digits, a colon, and a seconds field below 60.
   * Not part of the component; it is the inverse `FormatTime` is checked against.
   */
  function ParseTime(s: string): Option<nat>
  {
    match IndexOf(s, ':')
    case None => None
    case Some(i) =>
      ReadFields(s[..i], s[i + 1..])
  }

  /** The minutes and seconds fields on either side of the colon: non-empty digits, seconds below 60. */
  function ReadFields(mins: string, secs: string): Option<nat>
  {
    if |mins| > 0 && |secs| > 0 && AllDigits(mins) && AllDigits(secs) && DecimalValue(secs) < 60
    then Some(60 * DecimalValue(mins) + DecimalValue(secs))
    else None
  }

  /** A colon after a digit string is the first colon. */
  lemma ColonAfterDigits(a: string, b: string)
    requires AllDigits(a)
    ensures IndexOf(a + ":" + b, ':') == Some(|a|)
  {
    var r := a + ":" + b;
    forall j | 0 <= j < |a|
      ensures r[j] != ':'
    {
      assert r[j] == a[j] && IsDigit(a[j]);
    }
    IndexOfFirst(r, ':', |a|);
  }

  /** A digit field, a colon and anything after it are read as those two fields. */
  lemma ParseFields(a: string, b: string)
    requires AllDigits(a)
    ensures ParseTime(a + ":" + b) == ReadFields(a, b)
  {
    var r := a + ":" + b;
    ColonAfterDigits(a, b);
    assert r[..|a|] == a;
    assert r[|a| + 1..] == b;
  }

  /** The clock face determines the time: the minutes field times 60 plus the seconds field below 60. */
  lemma FormatTimeRoundTrip(seconds: nat)
    ensures ParseTime(FormatTime(seconds)) == Some(seconds)
  {
    var m, c := seconds / 60, seconds % 60;
    var a, b := PadStart2(Decimal(m)), PadStart2(Decimal(c));
    PadStart2Value(Decimal(m));
    PadStart2Value(Decimal(c));
    assert DecimalValue(a) == m && DecimalValue(b) == c;
    ParseFields(a, b);
    assert FormatTime(seconds) == a + ":" + b;
  }

  /** The colour classes of `getTimerColor`. */
  datatype TimerColor = Red | Yellow | Forest

  /** `getTimerColor`: red at 30 seconds or less, yellow up to a minute, the default colour above. */
  function TimerColorOf(timeLeft: int): (c: TimerColor)
    ensures c == Red <==> timeLeft <= 30
    ensures c == Yellow <==> 30 < timeLeft <= 60
    ensures c == Forest <==> 60 < timeLeft
  {
    if timeLeft <= 30 then Red else if timeLeft <= 60 then Yellow else Forest
  }

  function Urgency(c: TimerColor): nat
  {
    match c
    case Red => 2
    case Yellow => 1
    case Forest => 0
  }

  /** Less time never shows a calmer colour. */
  lemma ColorMonotone(t1: int, t2: int)
    requires t1 <= t2
    ensures Urgency(TimerColorOf(t1)) >= Urgency(TimerColorOf(t2))
  {
  }

  // ---------------------------------------------------------------------
  // ChessTimer
  // ---------------------------------------------------------------------

  class Clock {
    const initialTime: nat
    const increment: int
    var isActive: bool
    var isCurrentPlayer: bool
    var isRunning: bool
    var timeLeft: nat

    /** `isRunning` follows the props, and the clock never holds more than it started with. */
    ghost predicate Valid()
      reads this
    {
      isRunning == (isActive && isCurrentPlayer) && timeLeft <= initialTime
    }

    /** Mounting the component: `useState(initialTime)`, then the effect that sets `isRunning`. */
    constructor (initialTime: nat, increment: int, isActive: bool, isCurrentPlayer: bool)
      ensures Valid()
      ensures this.initialTime == initialTime && this.increment == increment
      ensures this.isActive == isActive && this.isCurrentPlayer == isCurrentPlayer
      ensures timeLeft == initialTime
    {
      this.initialTime := initialTime;
      this.increment := increment;
      this.isActive := isActive;
      this.isCurrentPlayer := isCurrentPlayer;
      timeLeft := initialTime;
      isRunning := isActive && isCurrentPlayer;
    }

    /** New props, followed by the effect `setIsRunning(isActive && isCurrentPlayer)`; the time is kept. */
    method SetProps(isActive: bool, isCurrentPlayer: bool)
      requires Valid()
      modifies this`isActive, this`isCurrentPlayer, this`isRunning
      ensures Valid()
      ensures this.isActive == isActive && this.isCurrentPlayer == isCurrentPlayer
    {
      this.isActive := isActive;
      this.isCurrentPlayer := isCurrentPlayer;
      isRunning := isActive && isCurrentPlayer;
    }

    /**
     * One second of the interval: nothing unless running with time left;
     * otherwise one second less, and `onTimeUp` (returned as `timeUp`) on
     * the tick that reaches zero.  `increment` plays no part.
     */
    method Tick() returns (timeUp: bool)
      requires Valid()
      modifies this`timeLeft
      ensures Valid()
      ensures timeLeft == TickTime(old(timeLeft), isRunning)
      ensures timeUp == TimeUpOnTick(old(timeLeft), isRunning)
      ensures timeUp ==> timeLeft == 0
      ensures old(timeLeft) == 0 ==> !timeUp && timeLeft == 0
    {
      timeUp := false;
      if isRunning && timeLeft > 0 {
        var newTime := timeLeft - 1;
        if newTime <= 0 {
          timeUp := true;
          timeLeft := 0;
        } else {
          timeLeft := newTime;
        }
      }
    }

    /** The clock face. */
    function Face(): (s: string)
      reads this
      ensures ParseTime(s) == Some(timeLeft)
    {
      FormatTimeRoundTrip(timeLeft);
      FormatTime(timeLeft)
    }

    function Color(): TimerColor
      reads this
    {
      TimerColorOf(timeLeft)
    }

    /** The "LOW TIME!" warning: ten seconds or less on a running clock, always in red. */
    function ShowsLowTime(): (b: bool)
      reads this
      ensures b <==> isRunning && timeLeft <= 10
      ensures b ==> Color() == Red
    {
      timeLeft <= 10 && isRunning
    }

    /** The pulsing card of `getCardStyle`: 30 seconds or less on a running clock. */
    function Pulses(): (b: bool)
      reads this
      ensures b <==> isRunning && Color() == Red
    {
      timeLeft <= 30 && isRunning
    }

    /** The highlighted card and the green dot of `getCardStyle`: shown exactly while the clock runs. */
    function Highlighted(): (b: bool)
      reads this
      requires Valid()
      ensures b <==> isRunning
    {
      isCurrentPlayer && isActive
    }
  }

  // ---------------------------------------------------------------------
  // DualChessTimer
  // ---------------------------------------------------------------------

  class DualTimer {
    const black: Clock
    const white: Clock
    var currentPlayer: Player
    var gameActive: bool

    /** Both clocks share `gameActive`; exactly one of them is the current player's. */
    ghost predicate Valid()
      reads this, black, white
    {
      black != white && black.Valid() && white.Valid()
      && black.isActive == gameActive && white.isActive == gameActive
      && black.isCurrentPlayer == (currentPlayer == Black)
      && white.isCurrentPlayer == (currentPlayer == White)
    }

    function ClockOf(p: Player): Clock
    {
      if p == White then white else black
    }

    /** Which clock runs: the current player's while the game is active, and never both. */
    function RunningSide(): (r: Option<Player>)
      reads this, black, white
      requires Valid()
      ensures r.Some? <==> black.isRunning || white.isRunning
      ensures !(black.isRunning && white.isRunning)
      ensures r.Some? <==> gameActive
      ensures r.Some? ==> r.value == currentPlayer && ClockOf(r.value).isRunning
    {
      if gameActive then Some(currentPlayer) else None
    }

    constructor (whiteTime: nat, blackTime: nat, increment: int, currentPlayer: Player, gameActive: bool)
      ensures Valid() && fresh(black) && fresh(white)
      ensures this.currentPlayer == currentPlayer && this.gameActive == gameActive
      ensures white.timeLeft == whiteTime && black.timeLeft == blackTime
      ensures white.initialTime == whiteTime && black.initialTime == blackTime
    {
      black := new Clock(blackTime, increment, gameActive, currentPlayer == Black);
      white := new Clock(whiteTime, increment, gameActive, currentPlayer == White);
      this.currentPlayer := currentPlayer;
      this.gameActive := gameActive;
    }

    /** New props from the board; both clocks keep their time. */
    method SetProps(currentPlayer: Player, gameActive: bool)
      requires Valid()
      modifies this, black, white
      ensures Valid()
      ensures this.currentPlayer == currentPlayer && this.gameActive == gameActive
      ensures black.timeLeft == old(black.timeLeft) && white.timeLeft == old(white.timeLeft)
    {
      this.currentPlayer := currentPlayer;
      this.gameActive := gameActive;
      black.SetProps(gameActive, currentPlayer == Black);
      white.SetProps(gameActive, currentPlayer == White);
    }

    /**
     * One second on both intervals.  Only the current player's clock can
     * move, and the colour reported with `onTimeUp` is that clock's.
     */
    method Tick() returns (expired: Option<Player>)
      requires Valid()
      modifies black`timeLeft, white`timeLeft
      ensures Valid()
      ensures ClockOf(currentPlayer).timeLeft == TickTime(old(ClockOf(currentPlayer).timeLeft), gameActive)
      ensures ClockOf(Opponent(currentPlayer)).timeLeft == old(ClockOf(Opponent(currentPlayer)).timeLeft)
      ensures expired == if TimeUpOnTick(old(ClockOf(currentPlayer).timeLeft), gameActive) then Some(currentPlayer) else None
      ensures expired.Some? ==> ClockOf(expired.value).timeLeft == 0
    {
      var blackUp := black.Tick();
      var whiteUp := white.Tick();
      expired := if blackUp then Some(Black) else if whiteUp then Some(White) else None;
    }
  }
}
