/** The CSA game session manager: logs in to a CSA server, plays a series of games
    through a search engine, keeps both clocks in step with the server, and decides
    after each teardown whether to end the series or log in again. */
module CSAStore {
  import opened Wrappers
  import opened Shogi
  import CSA

  // ===========================================================================
  // End-of-game outcome.
  // ===========================================================================

  /** The three special moves that mean somebody committed a foul. */
  predicate IsFoul(move: CSA.CSASpecialMove) {
    move == CSA.OuteSennichite || move == CSA.IllegalMove || move == CSA.IllegalAction
  }

  /** The record's terminal entry for a server-reported end of game. `color` is the side
      to move in the record, `myColor` the colour this client plays. */
  function GameResultToSpecialMove(move: CSA.CSASpecialMove, gameResult: CSA.CSAGameResult,
                                   color: Color, myColor: Color): (r: SpecialMove)
    ensures move == CSA.Resign ==> r == Resign
    ensures move == CSA.Sennichite ==> r == RepetitionDraw
    ensures IsFoul(move) && gameResult == CSA.Win ==> (r == FoulWin <==> color == myColor)
    ensures IsFoul(move) && gameResult == CSA.Lose ==> (r == FoulLose <==> color == myColor)
    ensures IsFoul(move) && (gameResult == CSA.Win || gameResult == CSA.Lose) ==> r == FoulWin || r == FoulLose
    ensures move == CSA.TimeUp ==> r == Timeout
    ensures move == CSA.Jishogi ==> r == EnteringOfKing
    ensures move == CSA.MaxMoves ==> r == Impass
    ensures move.OtherSpecialMove? || (IsFoul(move) && gameResult != CSA.Win && gameResult != CSA.Lose) ==>
      r == (if gameResult == CSA.Draw then Draw else Interrupt)
  {
    match move
    case Resign => Resign
    case Sennichite => RepetitionDraw
    case OuteSennichite | IllegalMove | IllegalAction =>
      if gameResult == CSA.Win then (if color == myColor then FoulWin else FoulLose)
      else if gameResult == CSA.Lose then (if color == myColor then FoulLose else FoulWin)
      else if gameResult == CSA.Draw then Draw
      else Interrupt
    case TimeUp => Timeout
    case Jishogi => EnteringOfKing
    case MaxMoves => Impass
    case OtherSpecialMove(_) => if gameResult == CSA.Draw then Draw else Interrupt
  }

  // ===========================================================================
  // Elapsed time of a move token: the digits of a trailing ",T<digits>".
  // ===========================================================================

  predicate IsDigit(c: char) {
    '0' <= c <= '9'
  }

  predicate AllDigits(s: string) {
    forall i :: 0 <= i < |s| ==> IsDigit(s[i])
  }

  /** The characters a regular expression's `.` does not match. */
  predicate IsLineTerminator(c: char) {
    c == '\n' || c == '\r' || c == '\U{2028}' || c == '\U{2029}'
  }

  predicate NoLineTerminator(s: string) {
    forall i :: 0 <= i < |s| ==> !IsLineTerminator(s[i])
  }

  /** The length of the run of digits that ends `s`. */
  function TrailingDigitCount(s: string): (n: nat)
    ensures n <= |s|
    ensures forall i :: |s| - n <= i < |s| ==> IsDigit(s[i])
    ensures n < |s| ==> !IsDigit(s[|s| - n - 1])
  {
    if |s| == 0 || !IsDigit(s[|s| - 1]) then 0
    else
      var k := TrailingDigitCount(s[..|s| - 1]);
      assert forall i :: |s| - 1 - k <= i < |s| - 1 ==> s[i] == s[..|s| - 1][i];
      1 + k
  }

  /** The capture group of /^.*,T([0-9]+)$/ on `data`, or None when it does not match. */
  function MatchElapsedTime(data: string): (r: Option<string>)
    ensures r.Some? ==>
      var n := |r.value|;
      && n > 0 && AllDigits(r.value) && n + 2 <= |data|
      && data == data[..|data| - n - 2] + ",T" + r.value
      && NoLineTerminator(data[..|data| - n - 2])
  {
    var n := TrailingDigitCount(data);
    if n > 0 && n + 2 <= |data| && data[|data| - n - 2..|data| - n] == ",T"
       && NoLineTerminator(data[..|data| - n - 2])
    then
      assert data == data[..|data| - n - 2] + data[|data| - n - 2..|data| - n] + data[|data| - n..];
      Some(data[|data| - n..])
    else None
  }

  function Pow10(k: nat): (p: nat)
    ensures p > 0
  {
    if k == 0 then 1 else 10 * Pow10(k - 1)
  }

  /** The value of a string of decimal digits, as `parseInt` reads it: below 10^|d|,
      and at least 10^(|d|-1) when there is no leading zero. */
  function DecimalValue(d: string): (n: nat)
    requires AllDigits(d)
    ensures n < Pow10(|d|)
    ensures |d| > 0 && d[0] != '0' ==> Pow10(|d| - 1) <= n
  {
    if |d| == 0 then 0
    else
      var init := d[..|d| - 1];
      assert AllDigits(init) by {
        forall i | 0 <= i < |init| ensures IsDigit(init[i]) { assert init[i] == d[i]; }
      }
      assert |init| > 0 ==> init[0] == d[0];
      DecimalValue(init) * 10 + (d[|d| - 1] as int - '0' as int)
  }

  /** The server counts time in units of `timeUnitMs` milliseconds. */
  function TicksToMs(ticks: int, timeUnitMs: int): int {
    ticks * timeUnitMs
  }

  /** The elapsed time of a move token in milliseconds: zero without a time suffix. */
  function ElapsedMs(data: string, timeUnitMs: int): (ms: int)
    ensures MatchElapsedTime(data).None? ==> ms == 0
    ensures timeUnitMs >= 0 ==> ms >= 0
  {
    match MatchElapsedTime(data)
    case Some(digits) => TicksToMs(DecimalValue(digits), timeUnitMs)
    case None => 0
  }

  /** The time suffix is found exactly where the token was built with one: together with
      the postcondition of MatchElapsedTime, a token matches iff it is some line
      p + ",T" + d with d a non-empty run of digits, and then the group is d. */
  lemma MatchElapsedTimeOfSplit(p: string, d: string)
    requires |d| > 0 && AllDigits(d)
    ensures MatchElapsedTime(p + ",T" + d) == (if NoLineTerminator(p) then Some(d) else None)
  {
    var data := p + ",T" + d;
    var n := TrailingDigitCount(data);
    assert data[|data| - |d| - 1] == 'T';
    assert forall i :: |data| - |d| <= i < |data| ==> data[i] == d[i - |data| + |d|];
    assert n == |d|;
    assert data[..|data| - n - 2] == p;
    assert data[|data| - n - 2..|data| - n] == ",T";
    assert data[|data| - n..] == d;
  }

  lemma {:induction false} ElapsedMsOfSplit(p: string, d: string, timeUnitMs: int)
    requires |d| > 0 && AllDigits(d) && NoLineTerminator(p)
    ensures ElapsedMs(p + ",T" + d, timeUnitMs) == TicksToMs(DecimalValue(d), timeUnitMs)
  {
    MatchElapsedTimeOfSplit(p, d);
  }

  /** A move with ",T37" took 37 ticks; one without a time suffix took none. */
  lemma ElapsedMsExamples()
    ensures ElapsedMs("+7776FU,T37", 1000) == 37000
    ensures ElapsedMs("+7776FU", 1000) == 0
  {
    ElapsedMsOfSplit("+7776FU", "37", 1000);
    assert "+7776FU" + ",T" + "37" == "+7776FU,T37";
    assert TrailingDigitCount("+7776FU") == 0;
  }

  // ===========================================================================
  // The Floodgate principal-variation string: move tokens joined by spaces.
  // ===========================================================================

  /** `tokens` separated by single spaces. */
  function Join(tokens: seq<string>): string {
    if |tokens| == 0 then ""
    else if |tokens| == 1 then tokens[0]
    else Join(tokens[..|tokens| - 1]) + " " + tokens[|tokens| - 1]
  }

  /** An empty string is falsy, so leading empty tokens leave no separator behind. */
  function DropLeadingEmpty(tokens: seq<string>): (r: seq<string>)
    ensures r != [] ==> r[0] != ""
    ensures (forall i :: 0 <= i < |tokens| ==> tokens[i] != "") ==> r == tokens
  {
    if |tokens| > 0 && tokens[0] == "" then DropLeadingEmpty(tokens[1..]) else tokens
  }

  /** What DropLeadingEmpty drops is a run of empty tokens at the front, and nothing else. */
  lemma {:induction false} DropLeadingEmptySuffix(tokens: seq<string>)
    ensures exists k ::
      0 <= k <= |tokens| && (forall i :: 0 <= i < k ==> tokens[i] == "") && DropLeadingEmpty(tokens) == tokens[k..]
  {
    if |tokens| > 0 && tokens[0] == "" {
      DropLeadingEmptySuffix(tokens[1..]);
      var k :| 0 <= k <= |tokens[1..]| && (forall i :: 0 <= i < k ==> tokens[1..][i] == "")
        && DropLeadingEmpty(tokens[1..]) == tokens[1..][k..];
      assert tokens[k + 1..] == tokens[1..][k..];
      assert forall i :: 0 <= i < k + 1 ==> tokens[i] == "" by {
        forall i | 0 <= i < k + 1 ensures tokens[i] == "" {
          if i > 0 { assert tokens[i] == tokens[1..][i - 1]; }
        }
      }
    } else {
      assert tokens[0..] == tokens;
    }
  }

  lemma {:induction false} DropLeadingEmptySnoc(tokens: seq<string>, t: string)
    ensures DropLeadingEmpty(tokens + [t]) ==
      if DropLeadingEmpty(tokens) == [] then (if t == "" then [] else [t]) else DropLeadingEmpty(tokens) + [t]
  {
    if |tokens| > 0 && tokens[0] == "" {
      assert (tokens + [t])[1..] == tokens[1..] + [t];
      DropLeadingEmptySnoc(tokens[1..], t);
    } else if |tokens| == 0 {
      assert tokens + [t] == [t];
    }
  }

  lemma JoinSnoc(xs: seq<string>, t: string)
    requires xs != []
    ensures Join(xs + [t]) == Join(xs) + " " + t
  {
    assert (xs + [t])[..|xs|] == xs;
  }

  lemma JoinStartsNonEmpty(xs: seq<string>)
    requires xs != [] && xs[0] != ""
    ensures Join(xs) != ""
  {
    if |xs| > 1 {
      assert |Join(xs)| >= 1;
    }
  }

  /** The protocol token of each move. */
  function Tokens(pv: seq<Move>, formatCSAMove: Move -> string): (t: seq<string>)
    ensures |t| == |pv|
    ensures forall i :: 0 <= i < |pv| ==> t[i] == formatCSAMove(pv[i])
  {
    seq(|pv|, i requires 0 <= i < |pv| => formatCSAMove(pv[i]))
  }

  /** One iteration of the PV loop: a separator when the text so far is non-empty,
      then the token. */
  function PVAppend(acc: Option<string>, token: string): string {
    (if acc.Some? && acc.value != "" then acc.value + " " else "") + token
  }

  lemma PVStep(tokens: seq<string>, k: nat, acc: Option<string>)
    requires k < |tokens|
    requires acc == if k == 0 then None else Some(Join(DropLeadingEmpty(tokens[..k])))
    ensures PVAppend(acc, tokens[k]) == Join(DropLeadingEmpty(tokens[..k + 1]))
  {
    var done := DropLeadingEmpty(tokens[..k]);
    assert tokens[..k + 1] == tokens[..k] + [tokens[k]];
    DropLeadingEmptySnoc(tokens[..k], tokens[k]);
    if done != [] {
      JoinStartsNonEmpty(done);
      JoinSnoc(done, tokens[k]);
    } else {
      assert PVAppend(acc, tokens[k]) == tokens[k];
    }
  }

  /** The PV field of a Floodgate move message; `undefined` when the PV has no moves. */
  method FormatPV(pv: seq<Move>, formatCSAMove: Move -> string) returns (r: Option<string>)
    ensures r.None? <==> |pv| == 0
    ensures |pv| > 0 ==> r == Some(Join(DropLeadingEmpty(Tokens(pv, formatCSAMove))))
    ensures (forall i :: 0 <= i < |pv| ==> formatCSAMove(pv[i]) != "") ==>
      r == if |pv| == 0 then None else Some(Join(Tokens(pv, formatCSAMove)))
  {
    ghost var tokens := Tokens(pv, formatCSAMove);
    r := None;
    for k := 0 to |pv|
      invariant r == if k == 0 then None else Some(Join(DropLeadingEmpty(tokens[..k])))
    {
      ghost var acc := r;
      var prefix := if r.Some? && r.value != "" then r.value + " " else "";
      r := Some(prefix + formatCSAMove(pv[k]));
      PVStep(tokens, k, acc);
    }
    assert tokens[..|pv|] == tokens;
  }

  /** The index of the last space in `s`, or -1. */
  function LastSpace(s: string): (k: int)
    ensures -1 <= k < |s|
    ensures k >= 0 ==> s[k] == ' '
    ensures forall j :: k < j < |s| ==> s[j] != ' '
  {
    if |s| == 0 then -1
    else if s[|s| - 1] == ' ' then |s| - 1
    else
      var k := LastSpace(s[..|s| - 1]);
      assert forall j :: k < j < |s| - 1 ==> s[j] == s[..|s| - 1][j];
      k
  }

  /** How a receiver reads the PV field back: the pieces between spaces. */
  function SplitOnSpaces(s: string): (r: seq<string>)
    decreases |s|
  {
    var k := LastSpace(s);
    if k < 0 then [s] else SplitOnSpaces(s[..k]) + [s[k + 1..]]
  }

  /** Tokens without spaces survive the join: the PV string reads back as the tokens. */
  lemma {:induction false} SplitJoin(tokens: seq<string>)
    requires |tokens| > 0
    requires forall i :: 0 <= i < |tokens| ==> ' ' !in tokens[i]
    ensures SplitOnSpaces(Join(tokens)) == tokens
  {
    var last := tokens[|tokens| - 1];
    if |tokens| == 1 {
      assert forall j :: 0 <= j < |last| ==> last[j] != ' ' by {
        forall j | 0 <= j < |last| ensures last[j] != ' ' { assert last[j] in last; }
      }
      assert LastSpace(last) < 0;
    } else {
      var init := tokens[..|tokens| - 1];
      var s := Join(tokens);
      var m := |Join(init)|;
      assert s == Join(init) + " " + last;
      assert s[m] == ' ';
      forall j | m < j < |s| ensures s[j] != ' ' {
        assert s[j] == last[j - m - 1];
        assert last[j - m - 1] in last;
      }
      assert LastSpace(s) == m;
      assert s[..m] == Join(init);
      assert s[m + 1..] == last;
      SplitJoin(init);
      assert init + [last] == tokens;
    }
  }

  // ===========================================================================
  // Teardown policy.
  // ===========================================================================

  const LoginRetryIntervalSeconds: int := 5
  const LoginRetryIntervalMs: int := LoginRetryIntervalSeconds * 1000

  datatype CSAGameState = Offline | WaitingLogin | LoginFailed | LoginRetryInterval | Ready | Game

  /** What the caller of a teardown asks for next. */
  datatype ReloginBehavior = DoNotRelogin | ReloginWithInterval | ReloginImmediately

  /** What the teardown then does: end the series, log in again now, or after the retry interval. */
  datatype TeardownOutcome = EndSeries | LoginNow | LoginAfterInterval

  /** A pending stop request downgrades the policy to DO_NOT_RELOGIN; the series also
      ends once `repeat` games have been started out of `repeatLimit`. */
  function TeardownDecision(behavior: ReloginBehavior, stopRequested: bool, repeat: int, repeatLimit: int): (r: TeardownOutcome)
    ensures stopRequested || behavior == DoNotRelogin || repeat >= repeatLimit ==> r == EndSeries
    ensures r == LoginNow <==> !stopRequested && behavior == ReloginImmediately && repeat < repeatLimit
    ensures r == LoginAfterInterval <==> !stopRequested && behavior.ReloginWithInterval? && repeat < repeatLimit
  {
    if stopRequested || behavior == DoNotRelogin || repeat >= repeatLimit then EndSeries
    else if behavior == ReloginImmediately then LoginNow
    else LoginAfterInterval
  }

  // ===========================================================================
  // What the manager sees of its collaborators.
  // ===========================================================================

  datatype SearchInfoSenderType = SenderPlayer | SenderOpponent

  /** A search engine's report (other fields are not modelled). */
  datatype SearchInfo = SearchInfo(score: Option<int>, pv: Option<seq<Move>>)

  /** A built search engine, by identity. */
  type PlayerId = nat

  datatype RecordEntry = MoveEntry(move: Move, elapsedMs: int) | SpecialMoveEntry(specialMove: SpecialMove)

  /** A countdown clock: whether it runs, and the time set up at the last turn boundary. */
  datatype ClockState = ClockState(running: bool, timeMs: int, byoyomiMs: int)

  /** Time control in milliseconds. */
  datatype TimeLimit = TimeLimit(timeMs: int, byoyomiMs: int, incrementMs: int)

  /** Who sees a failure of an in-flight login: the caller of `login`, or the host's
      error handler (a login started by a teardown or by the retry timer). */
  datatype FailureSink = ToCaller | ToHost

  /** Where an in-flight `relogin` is suspended: building the player, or logging in. */
  datatype LoginStep = Idle | AwaitingPlayer(sink: FailureSink) | AwaitingSession(sink: FailureSink)

  /** An asynchronous request whose rejection is reported to the host. */
  datatype AsyncRequest = LogoutRequest | PlayerCloseRequest | SearchRequest | PonderRequest

  /** Outbound calls to the server, the player and the clocks, and notifications to the host. */
  datatype Event =
    | BuildPlayer(builder: CSA.PlayerBuilder, setting: CSA.PlayerSetting)
    | ApiLogin(server: CSA.CSAServerSetting)
    | ApiAgree(sessionID: int, gameID: string)
    | ApiMove(sessionID: int, move: string, score: Option<int>, pv: Option<string>)
    | ApiResign(sessionID: int)
    | ApiWin(sessionID: int)
    | ApiStop(sessionID: int)
    | ApiLogout(sessionID: int)
    | ClosePlayer(player: PlayerId)
    | StartSearch(player: PlayerId, record: seq<RecordEntry>, timeLimit: TimeLimit, blackTimeMs: int, whiteTimeMs: int)
    | StartPonder(player: PlayerId, record: seq<RecordEntry>, timeLimit: TimeLimit, blackTimeMs: int, whiteTimeMs: int)
    | ClockStop(clock: Color)
    | ClockStart(clock: Color)
    | SetRetryTimer(delayMs: int)
    | ClearRetryTimer
    | SetGameStartMetadata(gameTitle: string, blackName: string, whiteName: string, timeLimit: TimeLimit)
    | UpdateSearchInfo(sender: SearchInfoSenderType, info: SearchInfo)
    | AppendSearchComment(sender: SearchInfoSenderType, info: SearchInfo)
    | SaveRecord
    | GameNext
    | GameEnd
    | FlipBoard(flip: bool)
    | PieceBeat
    | ReportError(message: string)

  const NoPlayerMessage: string :=
    "想定されない問題が発生しました。CSA サーバーからデータを受信しましたが、プレイヤーが初期化されていません。"

  function UnparsableMoveMessage(data: string, reason: string): string {
    "CSAGameManager#onMove: 解釈できない指し手 [" + data + "]: " + reason
  }

  function RejectionMessage(request: AsyncRequest, e: string): string {
    match request
    case LogoutRequest => e
    case PlayerCloseRequest => e
    case SearchRequest => "CSAGameManager#next: プレイヤーにコマンドを送信できませんでした: " + e
    case PonderRequest => "CSAGameManager#next: プレイヤーにPonderコマンドを送信できませんでした: " + e
  }

  /** Scaling ticks to milliseconds loses nothing: the ticks can be read back. */
  lemma TicksRoundTrip(ticks: int, timeUnitMs: int)
    requires timeUnitMs > 0
    ensures TicksToMs(ticks, timeUnitMs) / timeUnitMs == ticks
    ensures TicksToMs(ticks, timeUnitMs) % timeUnitMs == 0
  {
    var ms := ticks * timeUnitMs;
    var q, r := ms / timeUnitMs, ms % timeUnitMs;
    assert ms == q * timeUnitMs + r && 0 <= r < timeUnitMs;
    assert (ticks - q) * timeUnitMs == r;
    MultipleBounds(ticks - q, timeUnitMs);
  }

  /** A non-zero multiple of a positive unit is at least the unit away from zero. */
  lemma MultipleBounds(k: int, unit: int)
    requires unit > 0
    ensures k >= 1 ==> k * unit >= unit
    ensures k <= -1 ==> k * unit <= -unit
  {
  }

  /** The game's time control in milliseconds: the summary's total time, byoyomi and
      increment, each in whole time units. */
  function TimeLimitOf(summary: CSA.CSAGameSummary): (t: TimeLimit)
    ensures summary.timeUnitMs > 0 ==>
      && t.timeMs / summary.timeUnitMs == summary.totalTime && t.timeMs % summary.timeUnitMs == 0
      && t.byoyomiMs / summary.timeUnitMs == summary.byoyomi && t.byoyomiMs % summary.timeUnitMs == 0
      && t.incrementMs / summary.timeUnitMs == summary.increment && t.incrementMs % summary.timeUnitMs == 0
  {
    var t := TimeLimit(TicksToMs(summary.totalTime, summary.timeUnitMs), TicksToMs(summary.byoyomi, summary.timeUnitMs),
                       TicksToMs(summary.increment, summary.timeUnitMs));
    if summary.timeUnitMs > 0 then
      TicksRoundTrip(summary.totalTime, summary.timeUnitMs);
      TicksRoundTrip(summary.byoyomi, summary.timeUnitMs);
      TicksRoundTrip(summary.increment, summary.timeUnitMs);
      t
    else t
  }

  /** The clock of `color` after a turn boundary: set from the server's remaining time,
      running iff `color` is to move. */
  function SyncedClock(color: Color, turn: Color, remainingTicks: int, summary: CSA.CSAGameSummary): (c: ClockState)
    ensures c.running <==> color == turn
  {
    ClockState(color == turn, TicksToMs(remainingTicks, summary.timeUnitMs), TicksToMs(summary.byoyomi, summary.timeUnitMs))
  }

  /** The events of a teardown that is not a no-op: releasing the session, the player,
      the clocks and the retry timer, then what the outcome asks for. */
  function TeardownLog(sessionID: int, player: Option<PlayerId>, retryTimer: Option<int>, outcome: TeardownOutcome,
                       builder: CSA.PlayerBuilder, playerSetting: CSA.PlayerSetting): seq<Event>
  {
    ReleaseLog(sessionID, player, retryTimer) + OutcomeLog(outcome, builder, playerSetting)
  }

  function ReleaseLog(sessionID: int, player: Option<PlayerId>, retryTimer: Option<int>): seq<Event> {
    (if sessionID != 0 then [ApiLogout(sessionID)] else [])
    + (if player.Some? then [ClosePlayer(player.value)] else [])
    + [ClockStop(Black), ClockStop(White)]
    + (if retryTimer.Some? then [ClearRetryTimer] else [])
  }

  function OutcomeLog(outcome: TeardownOutcome, builder: CSA.PlayerBuilder, playerSetting: CSA.PlayerSetting): seq<Event> {
    match outcome
    case EndSeries => [GameEnd]
    case LoginNow => [BuildPlayer(builder, playerSetting)]
    case LoginAfterInterval => [SetRetryTimer(LoginRetryIntervalMs)]
  }

  /** The events of a turn boundary: both clocks stop, the mover's clock starts, then
      the player searches on its own turn and ponders on the opponent's. */
  function TurnLog(turn: Color, player: Option<PlayerId>, summary: CSA.CSAGameSummary, record: seq<RecordEntry>,
                   playerStates: CSA.CSAPlayerStates): seq<Event>
  {
    var blackMs := TicksToMs(playerStates.blackTime, summary.timeUnitMs);
    var whiteMs := TicksToMs(playerStates.whiteTime, summary.timeUnitMs);
    [ClockStop(Black), ClockStop(White), ClockStart(turn)]
    + (if player.None? then [ReportError(NoPlayerMessage)]
       else if turn == summary.myColor then [StartSearch(player.value, record, TimeLimitOf(summary), blackMs, whiteMs)]
       else [StartPonder(player.value, record, TimeLimitOf(summary), blackMs, whiteMs)])
  }

  /** The events of a game start before the first turn boundary. */
  function StartLog(summary: CSA.CSAGameSummary, autoFlip: bool): seq<Event> {
    [SetGameStartMetadata(summary.id, summary.blackPlayerName, summary.whitePlayerName, TimeLimitOf(summary))]
    + (if autoFlip then [FlipBoard(summary.myColor == White)] else [])
  }

  /** The annotations recorded with a move the engine of this client made. */
  function AnnotationLog(isMyMove: bool, info: Option<SearchInfo>, enableComment: bool): seq<Event> {
    if isMyMove && info.Some? then
      [UpdateSearchInfo(SenderPlayer, info.value)]
      + (if enableComment then [AppendSearchComment(SenderPlayer, info.value)] else [])
    else []
  }

  /** The PV text Floodgate receives for a search report: none without a non-empty PV;
      otherwise a receiver splitting it on spaces gets back the move tokens, as long as
      they are non-empty and without spaces. */
  function FloodgatePV(info: Option<SearchInfo>, formatCSAMove: Move -> string): (r: Option<string>)
    ensures r.None? <==> info.None? || info.value.pv.None? || |info.value.pv.value| == 0
    ensures r.Some? && info.Some? && info.value.pv.Some?
      && (forall i :: 0 <= i < |info.value.pv.value| ==>
            formatCSAMove(info.value.pv.value[i]) != "" && ' ' !in formatCSAMove(info.value.pv.value[i]))
      ==> SplitOnSpaces(r.value) == Tokens(info.value.pv.value, formatCSAMove)
  {
    if info.Some? && info.value.pv.Some? && |info.value.pv.value| > 0 then
      var pv := info.value.pv.value;
      var tokens := Tokens(pv, formatCSAMove);
      if forall i :: 0 <= i < |pv| ==> formatCSAMove(pv[i]) != "" && ' ' !in formatCSAMove(pv[i]) then
        SplitJoin(tokens);
        Some(Join(DropLeadingEmpty(tokens)))
      else Some(Join(DropLeadingEmpty(tokens)))
    else None
  }

  // ===========================================================================
  // The session manager.
  // ===========================================================================

  class CSAGameManager {
    /** The session table that routes the server's events to their manager. */
    const table: SessionTable
    /** Reads a move token against the current record (external codec). */
    const parseCSAMove: (string, seq<RecordEntry>, string) -> Result<Move>
    /** Writes a move as a protocol token (external codec). */
    const formatCSAMove: Move -> string
    /** The side to move in a CSA position text (what importing the record yields). */
    const colorOfPosition: string -> Color

    var state: CSAGameState
    var setting: CSA.CSAGameSetting
    var sessionID: int
    var stopRequested: bool
    var repeat: int
    var player: Option<PlayerId>
    var gameSummary: CSA.CSAGameSummary
    var searchInfo: Option<SearchInfo>
    var playerBuilder: CSA.PlayerBuilder
    var retryTimer: Option<int>
    var blackClock: ClockState
    var whiteClock: ClockState
    /** The record: its initial position, its entries, and the side to move. */
    var recordPosition: string
    var record: seq<RecordEntry>
    var turn: Color
    /** The suspension point of an in-flight login. */
    var loginStep: LoginStep
    /** Everything the manager has asked of the outside world, in order. */
    ghost var log: seq<Event>

    /** The states in which the session table may hold this manager. */
    predicate Registered()
      reads this`state
    {
      state == Ready || state == Game
    }

    /** The invariant that holds between any two events, and also in the transient
        state LOGIN_FAILED in which a failed login hands over to teardown. */
    ghost predicate Consistent()
      reads this`state, this`loginStep, this`player, this`sessionID, this`stopRequested, this`retryTimer
    {
      && (state == WaitingLogin <==> !loginStep.Idle?)
      && (loginStep.AwaitingPlayer? ==> player.None?)
      && (loginStep.AwaitingSession? ==> player.Some?)
      && (!Registered() ==> sessionID == 0 && !stopRequested)
      && (state == Offline ==> player.None? && retryTimer.None?)
      && (state == LoginRetryInterval ==> player.None? && retryTimer.Some?)
      && (Registered() ==> sessionID != 0 && player.Some?)
    }

    /** This manager may take the server's events for session `id` routed by `t`. */
    ghost predicate RoutedAs(t: SessionTable, id: int)
      reads this`state, this`loginStep, this`player, this`sessionID, this`stopRequested, this`retryTimer
    {
      table == t && sessionID == id && Valid() && Registered()
    }

    /** LOGIN_FAILED is never observable: the failed login tears down at once. */
    ghost predicate Valid()
      reads this`state, this`loginStep, this`player, this`sessionID, this`stopRequested, this`retryTimer
    {
      Consistent() && state != LoginFailed
    }

    constructor (table: SessionTable, parseCSAMove: (string, seq<RecordEntry>, string) -> Result<Move>,
                 formatCSAMove: Move -> string, colorOfPosition: string -> Color,
                 setting: CSA.CSAGameSetting, gameSummary: CSA.CSAGameSummary,
                 playerBuilder: CSA.PlayerBuilder, recordPosition: string)
      ensures Valid()
      ensures this.table == table && this.setting == setting && this.gameSummary == gameSummary
      ensures this.parseCSAMove == parseCSAMove && this.formatCSAMove == formatCSAMove
      ensures this.colorOfPosition == colorOfPosition && this.playerBuilder == playerBuilder
      ensures state == Offline && sessionID == 0 && repeat == 0 && !stopRequested
      ensures player.None? && searchInfo.None? && retryTimer.None? && loginStep.Idle?
      ensures this.recordPosition == recordPosition && record == [] && turn == colorOfPosition(recordPosition)
      ensures log == []
    {
      this.table := table;
      this.parseCSAMove := parseCSAMove;
      this.formatCSAMove := formatCSAMove;
      this.colorOfPosition := colorOfPosition;
      this.setting := setting;
      this.gameSummary := gameSummary;
      this.playerBuilder := playerBuilder;
      this.recordPosition := recordPosition;
      state := Offline;
      sessionID := 0;
      stopRequested := false;
      repeat := 0;
      player := None;
      searchInfo := None;
      retryTimer := None;
      blackClock := ClockState(false, 0, 0);
      whiteClock := ClockState(false, 0, 0);
      record := [];
      turn := colorOfPosition(recordPosition);
      loginStep := Idle;
      log := [];
    }

    /** The side to move is the colour this client plays. */
    predicate IsMyTurn()
      reads this`turn, this`gameSummary
    {
      turn == gameSummary.myColor
    }

    /** A turn boundary with a player starts the mover's clock, then tells the engine to
        search exactly on this client's turn and to ponder exactly on the opponent's. */
    lemma TurnCommand(playerStates: CSA.CSAPlayerStates)
      requires player.Some?
      ensures var l := TurnLog(turn, player, gameSummary, record, playerStates);
        && |l| == 4 && l[2] == ClockStart(turn)
        && (l[3].StartSearch? <==> IsMyTurn()) && (l[3].StartPonder? <==> !IsMyTurn())
        && (l[3].StartSearch? || l[3].StartPonder?) && l[3].player == player.value && l[3].record == record
    {
    }

    // -------------------------------------------------------------------------
    // Login.
    // -------------------------------------------------------------------------

    /** Starts a series of games. Rejected, changing nothing, while a session exists or
        the manager is not OFFLINE. Otherwise stores the setting, resets the game count
        and starts the login sequence, whose later failure reaches this caller. */
    method Login(setting: CSA.CSAGameSetting, playerBuilder: CSA.PlayerBuilder) returns (rejected: Option<string>)
      requires Valid() && table.Routable()
      modifies this
      ensures Valid() && table.Routable()
      ensures old(sessionID) != 0 ==>
        rejected == Some("CSAGameManager#start: session already exists") && unchanged(this)
      ensures old(sessionID) == 0 && old(state) != Offline ==>
        rejected == Some("CSAGameManager#start: unexpected state") && unchanged(this)
      ensures old(sessionID) == 0 && old(state) == Offline ==>
        && rejected.None?
        && this.setting == setting && this.playerBuilder == playerBuilder && repeat == 0
        && state == WaitingLogin && loginStep == AwaitingPlayer(ToCaller)
        && log == old(log) + [BuildPlayer(playerBuilder, setting.player)]
        && sessionID == 0 && player.None? && stopRequested == old(stopRequested)
        && blackClock == old(blackClock) && whiteClock == old(whiteClock) && retryTimer == old(retryTimer)
        && gameSummary == old(gameSummary) && searchInfo == old(searchInfo)
        && recordPosition == old(recordPosition) && record == old(record) && turn == old(turn)
    {
      if sessionID != 0 {
        return Some("CSAGameManager#start: session already exists");
      }
      if state != Offline {
        return Some("CSAGameManager#start: unexpected state");
      }
      this.setting := setting;
      this.playerBuilder := playerBuilder;
      repeat := 0;
      Relogin(ToCaller);
      rejected := None;
    }

    /** The synchronous part of a login: WAITING_LOGIN, then build the player. */
    method Relogin(sink: FailureSink)
      modifies this`state, this`loginStep, this`log
      ensures state == WaitingLogin && loginStep == AwaitingPlayer(sink)
      ensures log == old(log) + [BuildPlayer(playerBuilder, setting.player)]
    {
      state := WaitingLogin;
      loginStep := AwaitingPlayer(sink);
      log := log + [BuildPlayer(playerBuilder, setting.player)];
    }

    /** The player build resolved. On success the server login is requested; on failure
        the state is LOGIN_FAILED, the manager tears down asking to retry after the
        interval, and the failure goes to whoever started the loginStep. */
    method OnPlayerBuilt(result: Result<PlayerId>) returns (thrown: Option<string>)
      requires Valid() && loginStep.AwaitingPlayer? && table.Routable()
      modifies this, table
      ensures Valid() && table.Routable()
      ensures table.managers == old(table.managers)
      ensures result.Ok? ==>
        && thrown.None? && state == WaitingLogin && player == Some(result.value)
        && loginStep == AwaitingSession(old(loginStep).sink)
        && log == old(log) + [ApiLogin(setting.server)]
        && stopRequested == old(stopRequested) && retryTimer == old(retryTimer)
        && blackClock == old(blackClock) && whiteClock == old(whiteClock)
      ensures result.Err? ==>
        var outcome := TeardownDecision(ReloginWithInterval, false, old(repeat), old(setting).repeat);
        && loginStep.Idle? && sessionID == 0 && player.None?
        && blackClock == old(blackClock).(running := false) && whiteClock == old(whiteClock).(running := false)
        && (outcome == EndSeries ==> state == Offline && retryTimer.None?)
        && (outcome == LoginAfterInterval ==> state == LoginRetryInterval && retryTimer == Some(LoginRetryIntervalMs))
        && thrown == (if old(loginStep).sink == ToCaller then Some(result.message) else None)
        && log == old(log) + TeardownLog(0, None, old(retryTimer), outcome, playerBuilder, setting.player)
                  + (if old(loginStep).sink == ToHost then [ReportError(result.message)] else [])
      ensures setting == old(setting) && repeat == old(repeat) && gameSummary == old(gameSummary)
      ensures playerBuilder == old(playerBuilder) && searchInfo == old(searchInfo)
      ensures recordPosition == old(recordPosition) && record == old(record) && turn == old(turn)
    {
      var sink := loginStep.sink;
      match result {
        case Ok(p) =>
          player := Some(p);
          loginStep := AwaitingSession(sink);
          log := log + [ApiLogin(setting.server)];
          thrown := None;
        case Err(e) =>
          thrown := FailLogin(sink, e);
      }
    }

    /** The server login resolved. On success the session is READY, the table routes
        its id to this manager and the host hears that a game is awaited; on failure
        as for OnPlayerBuilt, closing the player just built. */
    method OnCSALoginCompleted(result: Result<int>) returns (thrown: Option<string>)
      requires Valid() && loginStep.AwaitingSession? && table.Routable()
      requires result.Ok? ==> result.value != 0
      modifies this, table
      ensures Valid() && table.Routable()
      ensures result.Ok? ==>
        && thrown.None? && state == Ready && sessionID == result.value && loginStep.Idle?
        && player == old(player)
        && table.managers == old(table.managers)[result.value := this]
        && log == old(log) + [GameNext]
        && stopRequested == old(stopRequested) && retryTimer == old(retryTimer)
        && blackClock == old(blackClock) && whiteClock == old(whiteClock)
      ensures result.Err? ==>
        var outcome := TeardownDecision(ReloginWithInterval, false, old(repeat), old(setting).repeat);
        && loginStep.Idle? && sessionID == 0 && player.None?
        && blackClock == old(blackClock).(running := false) && whiteClock == old(whiteClock).(running := false)
        && table.managers == old(table.managers)
        && (outcome == EndSeries ==> state == Offline && retryTimer.None?)
        && (outcome == LoginAfterInterval ==> state == LoginRetryInterval && retryTimer == Some(LoginRetryIntervalMs))
        && thrown == (if old(loginStep).sink == ToCaller then Some(result.message) else None)
        && log == old(log) + TeardownLog(0, old(player), old(retryTimer), outcome, playerBuilder, setting.player)
                  + (if old(loginStep).sink == ToHost then [ReportError(result.message)] else [])
      ensures setting == old(setting) && repeat == old(repeat) && gameSummary == old(gameSummary)
      ensures playerBuilder == old(playerBuilder) && searchInfo == old(searchInfo)
      ensures recordPosition == old(recordPosition) && record == old(record) && turn == old(turn)
    {
      var sink := loginStep.sink;
      match result {
        case Ok(id) =>
          sessionID := id;
          state := Ready;
          loginStep := Idle;
          table.Entry(id, this);
          log := log + [GameNext];
          thrown := None;
        case Err(e) =>
          thrown := FailLogin(sink, e);
      }
    }

    /** The catch of a login: LOGIN_FAILED, then a teardown asking to retry after the
        interval, then the failure goes to whoever started the loginStep. */
    method FailLogin(sink: FailureSink, e: string) returns (thrown: Option<string>)
      requires Consistent() && state == WaitingLogin && table.Routable()
      modifies this, table
      ensures Valid() && table.Routable() && loginStep.Idle? && sessionID == 0 && player.None?
      ensures blackClock == old(blackClock).(running := false) && whiteClock == old(whiteClock).(running := false)
      ensures table.managers == old(table.managers)
      ensures
        var outcome := TeardownDecision(ReloginWithInterval, false, old(repeat), old(setting).repeat);
        && (outcome == EndSeries ==> state == Offline && retryTimer.None?)
        && (outcome == LoginAfterInterval ==> state == LoginRetryInterval && retryTimer == Some(LoginRetryIntervalMs))
        && log == old(log) + TeardownLog(0, old(player), old(retryTimer), outcome, playerBuilder, setting.player)
                  + (if sink == ToHost then [ReportError(e)] else [])
      ensures thrown == (if sink == ToCaller then Some(e) else None)
      ensures unchanged(this`setting, this`repeat, this`gameSummary, this`searchInfo, this`playerBuilder)
      ensures unchanged(this`recordPosition, this`record, this`turn)
    {
      loginStep := Idle;
      state := LoginFailed;
      Close(ReloginWithInterval);
      if sink == ToHost {
        log := log + [ReportError(e)];
        thrown := None;
      } else {
        thrown := Some(e);
      }
    }

    /** The retry timer fired: log in again; a failure goes to the host. */
    method OnRetryTimer()
      requires Valid() && state == LoginRetryInterval && table.Routable()
      modifies this`state, this`loginStep, this`log
      ensures Valid() && table.Routable()
      ensures state == WaitingLogin && loginStep == AwaitingPlayer(ToHost)
      ensures log == old(log) + [BuildPlayer(playerBuilder, setting.player)]
    {
      Relogin(ToHost);
    }

    // -------------------------------------------------------------------------
    // Stop, logout and teardown.
    // -------------------------------------------------------------------------

    /** Asks the server to abort the game; the next teardown will not log in again. */
    method Stop()
      requires Valid() && table.Routable()
      modifies this`stopRequested, this`log
      ensures Valid() && table.Routable()
      ensures old(sessionID) != 0 ==> stopRequested && log == old(log) + [ApiStop(sessionID)]
      ensures old(sessionID) == 0 ==> unchanged(this)
    {
      if sessionID != 0 {
        stopRequested := true;
        log := log + [ApiStop(sessionID)];
      }
    }

    method Logout()
      requires Valid() && table.Routable()
      modifies this, table
      ensures Valid() && table.Routable()
      ensures TornDown(DoNotRelogin, old(log))
      ensures old(state) != Offline && old(state) != WaitingLogin ==> state == Offline && log[|log| - 1] == GameEnd
      ensures unchanged(this`setting, this`repeat, this`gameSummary, this`searchInfo, this`playerBuilder)
      ensures unchanged(this`recordPosition, this`record, this`turn)
    {
      Close(DoNotRelogin);
    }

    /** What a teardown with `behavior` did, from the state it started in, after the
        log `logBefore` of the handler that called it. */
    twostate predicate TornDown(behavior: ReloginBehavior, logBefore: seq<Event>)
      reads this, table
    {
      if old(state) == Offline || old(state) == WaitingLogin then
        && state == old(state) && sessionID == old(sessionID) && player == old(player)
        && stopRequested == old(stopRequested) && retryTimer == old(retryTimer) && loginStep == old(loginStep)
        && blackClock == old(blackClock) && whiteClock == old(whiteClock)
        && table.managers == old(table.managers) && log == logBefore
      else
        var outcome := TeardownDecision(behavior, old(stopRequested), old(repeat), old(setting).repeat);
        && sessionID == 0 && player.None? && !stopRequested
        && blackClock == old(blackClock).(running := false) && whiteClock == old(whiteClock).(running := false)
        && table.managers == (if old(sessionID) != 0 then old(table.managers) - {old(sessionID)} else old(table.managers))
        && old(sessionID) !in table.managers
        && log == logBefore + TeardownLog(old(sessionID), old(player), old(retryTimer), outcome,
                                         old(playerBuilder), old(setting).player)
        && (outcome == EndSeries ==> state == Offline && retryTimer.None? && loginStep.Idle?)
        && (outcome == LoginNow ==> state == WaitingLogin && retryTimer.None? && loginStep == AwaitingPlayer(ToHost))
        && (outcome == LoginAfterInterval ==>
              state == LoginRetryInterval && retryTimer == Some(LoginRetryIntervalMs) && loginStep.Idle?)
    }

    /** The setting, the game count, the summary, the engine's last report, the builder,
        the record's position and the side to move are as before. */
    twostate predicate KeptGame()
      reads this
    {
      && setting == old(setting) && repeat == old(repeat) && gameSummary == old(gameSummary)
      && searchInfo == old(searchInfo) && playerBuilder == old(playerBuilder)
      && recordPosition == old(recordPosition) && turn == old(turn)
    }

    /** The session, the player, the timer, the login step, the setting, the builder and
        the engine's last report are as before. */
    twostate predicate KeptSession()
      reads this
    {
      && sessionID == old(sessionID) && stopRequested == old(stopRequested) && player == old(player)
      && retryTimer == old(retryTimer) && loginStep == old(loginStep) && setting == old(setting)
      && playerBuilder == old(playerBuilder) && searchInfo == old(searchInfo)
    }

    /** What OnGameSummary did: the offered game is stored and agreed to. */
    twostate predicate Summarized(gs: CSA.CSAGameSummary)
      reads this
    {
      && KeptSession() && state == old(state) && repeat == old(repeat)
      && recordPosition == old(recordPosition) && record == old(record) && turn == old(turn)
      && blackClock == old(blackClock) && whiteClock == old(whiteClock)
      && gameSummary == gs && log == old(log) + [ApiAgree(sessionID, gs.id)]
    }

    /** What OnStart did: one more game, the state is GAME, the record restarts from the
        offered position, the host hears the metadata, and the first turn begins. */
    twostate predicate Started(playerStates: CSA.CSAPlayerStates)
      reads this
    {
      && KeptSession() && gameSummary == old(gameSummary)
      && state == Game && repeat == old(repeat) + 1
      && recordPosition == gameSummary.position && record == [] && turn == colorOfPosition(gameSummary.position)
      && blackClock == SyncedClock(Black, turn, playerStates.blackTime, gameSummary)
      && whiteClock == SyncedClock(White, turn, playerStates.whiteTime, gameSummary)
      && log == old(log) + StartLog(gameSummary, setting.autoFlip) + TurnLog(turn, player, gameSummary, record, playerStates)
    }

    /** What OnMove did with the token `data`: an unreadable token is only reported;
        a readable one is appended with its elapsed time, the side to move flips, the
        engine's report of this client's move is recorded, and the next turn begins. */
    twostate predicate Moved(data: string, playerStates: CSA.CSAPlayerStates)
      reads this
    {
      var parsed := parseCSAMove(recordPosition, old(record), data);
      && KeptSession() && state == old(state) && repeat == old(repeat)
      && gameSummary == old(gameSummary) && recordPosition == old(recordPosition)
      && (parsed.Err? ==>
            && record == old(record) && turn == old(turn)
            && blackClock == old(blackClock) && whiteClock == old(whiteClock)
            && log == old(log) + [ReportError(UnparsableMoveMessage(data, parsed.message))])
      && (parsed.Ok? ==>
            && record == old(record) + [MoveEntry(parsed.value, ElapsedMs(data, gameSummary.timeUnitMs))]
            && turn == Opposite(old(turn))
            && blackClock == SyncedClock(Black, turn, playerStates.blackTime, gameSummary)
            && whiteClock == SyncedClock(White, turn, playerStates.whiteTime, gameSummary)
            && log == old(log) + AnnotationLog(old(IsMyTurn()), searchInfo, setting.enableComment)
                      + [PieceBeat] + TurnLog(turn, player, gameSummary, record, playerStates))
    }

    /** What OnGameResult did: the outcome ends the record, the record is saved if asked
        for, and the manager tore down asking to log in again at once. */
    twostate predicate Ended(move: CSA.CSASpecialMove, gameResult: CSA.CSAGameResult)
      reads this, table
    {
      && KeptGame()
      && record == old(record) + [SpecialMoveEntry(GameResultToSpecialMove(move, gameResult, old(turn), old(gameSummary).myColor))]
      && TornDown(ReloginImmediately, old(log) + if old(setting).enableAutoSave then [SaveRecord] else [])
    }

    /** Teardown. A no-op while OFFLINE or while a login is in flight. Otherwise a pending
        stop request forces DO_NOT_RELOGIN and is cleared; the session leaves the table and
        is logged out; the player is closed; both clocks stop; the state is OFFLINE; a
        retry timer is cancelled; then the series ends, or a login starts now or after
        the retry interval. */
    method Close(behavior: ReloginBehavior)
      requires Consistent() && table.Routable()
      modifies this, table
      ensures Valid() && table.Routable()
      ensures TornDown(behavior, old(log))
      ensures unchanged(this`setting, this`repeat, this`gameSummary, this`searchInfo, this`playerBuilder)
      ensures unchanged(this`recordPosition, this`record, this`turn)
    {
      if state == Offline || state == WaitingLogin {
        return;
      }
      var reloginBehavior := if stopRequested then DoNotRelogin else behavior;
      ReleaseResources();
      ContinueSeries(reloginBehavior);
    }

    /** The outcome of a teardown whose stop request has already been folded in. */
    function SeriesOutcome(reloginBehavior: ReloginBehavior): TeardownOutcome
      reads this
    {
      TeardownDecision(reloginBehavior, false, repeat, setting.repeat)
    }

    /** The end of a teardown: the series ends, or a login starts now or after the retry
        interval. */
    method ContinueSeries(reloginBehavior: ReloginBehavior)
      requires Consistent() && table.Routable() && this !in table.managers.Values
      requires state == Offline && loginStep.Idle? && !stopRequested
      modifies this`state, this`retryTimer, this`loginStep, this`log
      ensures Valid() && table.Routable()
      ensures log == old(log) + OutcomeLog(SeriesOutcome(reloginBehavior), playerBuilder, setting.player)
      ensures SeriesOutcome(reloginBehavior) == EndSeries ==> state == Offline && retryTimer.None? && loginStep.Idle?
      ensures SeriesOutcome(reloginBehavior) == LoginNow ==>
        state == WaitingLogin && retryTimer.None? && loginStep == AwaitingPlayer(ToHost)
      ensures SeriesOutcome(reloginBehavior) == LoginAfterInterval ==>
        state == LoginRetryInterval && retryTimer == Some(LoginRetryIntervalMs) && loginStep.Idle?
    {
      if reloginBehavior == DoNotRelogin || repeat >= setting.repeat {
        log := log + [GameEnd];
      } else if reloginBehavior == ReloginImmediately {
        Relogin(ToHost);
      } else {
        state := LoginRetryInterval;
        retryTimer := Some(LoginRetryIntervalMs);
        log := log + [SetRetryTimer(LoginRetryIntervalMs)];
      }
    }

    /** The unconditional part of a teardown: the stop request is cleared, the session
        leaves the table and is logged out, the player is closed, both clocks stop, the
        state is OFFLINE and a retry timer is cancelled. */
    method ReleaseResources()
      requires Consistent() && table.Routable() && state != Offline && state != WaitingLogin
      modifies this, table
      ensures Consistent() && table.Routable() && state == Offline
      ensures sessionID == 0 && player.None? && !stopRequested && retryTimer.None? && loginStep.Idle?
      ensures blackClock == old(blackClock).(running := false) && whiteClock == old(whiteClock).(running := false)
      ensures table.managers == (if old(sessionID) != 0 then old(table.managers) - {old(sessionID)} else old(table.managers))
      ensures old(sessionID) !in table.managers && this !in table.managers.Values
      ensures log == old(log) + ReleaseLog(old(sessionID), old(player), old(retryTimer))
      ensures unchanged(this`setting, this`repeat, this`gameSummary, this`searchInfo, this`playerBuilder)
      ensures unchanged(this`recordPosition, this`record, this`turn)
    {
      stopRequested := false;
      Unroute();
      Disarm();
    }

    /** Closes the player, stops both clocks, goes OFFLINE and cancels a retry timer. */
    method Disarm()
      requires table.Routable() && this !in table.managers.Values
      requires !loginStep.Idle? ==> player.None?
      modifies this`player, this`blackClock, this`whiteClock, this`state, this`retryTimer, this`log
      ensures table.Routable() && state == Offline && player.None? && retryTimer.None?
      ensures blackClock == old(blackClock).(running := false) && whiteClock == old(whiteClock).(running := false)
      ensures log == old(log) + (if old(player).Some? then [ClosePlayer(old(player).value)] else [])
                    + [ClockStop(Black), ClockStop(White)]
                    + (if old(retryTimer).Some? then [ClearRetryTimer] else [])
    {
      if player.Some? {
        log := log + [ClosePlayer(player.value)];
        player := None;
      }
      blackClock := blackClock.(running := false);
      log := log + [ClockStop(Black)];
      whiteClock := whiteClock.(running := false);
      log := log + [ClockStop(White)];
      state := Offline;
      if retryTimer.Some? {
        log := log + [ClearRetryTimer];
        retryTimer := None;
      }
    }

    /** Drops the session: out of the table, then logged out. */
    method Unroute()
      requires table.Routable() && (Registered() || sessionID == 0)
      modifies this`sessionID, this`log, table
      ensures table.Routable() && sessionID == 0
      ensures table.managers == (if old(sessionID) != 0 then old(table.managers) - {old(sessionID)} else old(table.managers))
      ensures old(sessionID) !in table.managers && this !in table.managers.Values
      ensures log == old(log) + (if old(sessionID) != 0 then [ApiLogout(old(sessionID))] else [])
    {
      if sessionID != 0 {
        table.Release(sessionID);
        log := log + [ApiLogout(sessionID)];
      }
      assert this !in table.managers.Values by {
        forall id | id in table.managers
          ensures table.managers[id] != this
        {
          assert id in old(table.managers) && old(table.managers[id]) == table.managers[id];
        }
      }
      sessionID := 0;
    }
    // -------------------------------------------------------------------------
    // The server's events.
    // -------------------------------------------------------------------------

    /** Records the offered game and agrees to it. */
    method OnGameSummary(gameSummary: CSA.CSAGameSummary)
      requires Valid()
      modifies this`gameSummary, this`log
      ensures Valid() && Summarized(gameSummary)
    {
      this.gameSummary := gameSummary;
      log := log + [ApiAgree(sessionID, gameSummary.id)];
    }

    /** The offer was rejected: tear down, retrying after the interval. */
    method OnReject()
      requires Valid() && table.Routable()
      modifies this, table
      ensures Valid() && table.Routable()
      ensures TornDown(ReloginWithInterval, old(log)) && KeptGame() && record == old(record)
    {
      Close(ReloginWithInterval);
    }

    /** The game starts: one more game in the series, the record restarts from the
        offered position, the host hears the metadata (and a board flip if asked for),
        the state is GAME and the first turn begins. */
    method OnStart(playerStates: CSA.CSAPlayerStates)
      requires Valid() && Registered()
      modifies this`repeat, this`recordPosition, this`record, this`turn, this`state
      modifies this`blackClock, this`whiteClock, this`log
      ensures Valid() && Started(playerStates)
    {
      BeginGame();
      Next(playerStates);
    }

    /** Everything a game start does before the first turn boundary. */
    method BeginGame()
      requires Valid() && Registered()
      modifies this`repeat, this`recordPosition, this`record, this`turn, this`state, this`log
      ensures Valid()
      ensures state == Game && repeat == old(repeat) + 1
      ensures recordPosition == gameSummary.position && record == [] && turn == colorOfPosition(gameSummary.position)
      ensures log == old(log) + StartLog(gameSummary, setting.autoFlip)
    {
      EnterGame();
      repeat := repeat + 1;
      recordPosition := gameSummary.position;
      record := [];
      turn := colorOfPosition(gameSummary.position);
      log := log + [SetGameStartMetadata(gameSummary.id, gameSummary.blackPlayerName,
                                         gameSummary.whitePlayerName, TimeLimitOf(gameSummary))];
      if setting.autoFlip {
        log := log + [FlipBoard(gameSummary.myColor == White)];
      }
    }

    /** A move arrived. An unreadable one is reported and changes nothing else.
        Otherwise it is appended with its elapsed time, the side to move flips, the
        engine's last report is recorded when the move was this client's, the host
        hears a piece sound, and the next turn begins. */
    method OnMove(data: string, playerStates: CSA.CSAPlayerStates)
      requires Valid() && Registered()
      modifies this`record, this`turn, this`blackClock, this`whiteClock, this`log
      ensures Valid() && Moved(data, playerStates)
    {
      var isMyMove := IsMyTurn();
      var parsed := parseCSAMove(recordPosition, record, data);
      if parsed.Err? {
        log := log + [ReportError(UnparsableMoveMessage(data, parsed.message))];
        return;
      }
      RecordMove(parsed.value, ElapsedMs(data, gameSummary.timeUnitMs), isMyMove);
      Next(playerStates);
    }

    /** Appends a move and flips the side to move; records the engine's last report when
        the move was this client's; then the piece sound. */
    method RecordMove(move: Move, elapsedMs: int, isMyMove: bool)
      modifies this`record, this`turn, this`log
      ensures record == old(record) + [MoveEntry(move, elapsedMs)] && turn == Opposite(old(turn))
      ensures log == old(log) + AnnotationLog(isMyMove, searchInfo, setting.enableComment) + [PieceBeat]
    {
      record := record + [MoveEntry(move, elapsedMs)];
      turn := Opposite(turn);
      if isMyMove && searchInfo.Some? {
        log := log + [UpdateSearchInfo(SenderPlayer, searchInfo.value)];
      }
      if isMyMove && searchInfo.Some? && setting.enableComment {
        log := log + [AppendSearchComment(SenderPlayer, searchInfo.value)];
      }
      log := log + [PieceBeat];
    }

    /** The game ended: the outcome is appended to the record, the record is saved if
        asked for, and the manager tears down, logging in again at once if the series
        continues. */
    method OnGameResult(move: CSA.CSASpecialMove, gameResult: CSA.CSAGameResult)
      requires Valid() && table.Routable()
      modifies this, table
      ensures Valid() && table.Routable()
      ensures Ended(move, gameResult)
    {
      RecordResult(move, gameResult);
      Close(ReloginImmediately);
    }

    /** Appends the outcome to the record and saves the record if asked for. */
    method RecordResult(move: CSA.CSASpecialMove, gameResult: CSA.CSAGameResult)
      modifies this`record, this`log
      ensures record == old(record) + [SpecialMoveEntry(GameResultToSpecialMove(move, gameResult, turn, gameSummary.myColor))]
      ensures log == old(log) + if setting.enableAutoSave then [SaveRecord] else []
    {
      record := record + [SpecialMoveEntry(GameResultToSpecialMove(move, gameResult, turn, gameSummary.myColor))];
      if setting.enableAutoSave {
        log := log + [SaveRecord];
      }
    }

    /** The connection closed: tear down, retrying after the interval only if automatic
        relogin is enabled. */
    method OnClose()
      requires Valid() && table.Routable()
      modifies this, table
      ensures Valid() && table.Routable()
      ensures TornDown(if old(setting).autoRelogin then ReloginWithInterval else DoNotRelogin, old(log))
      ensures KeptGame() && record == old(record)
    {
      Close(if setting.autoRelogin then ReloginWithInterval else DoNotRelogin);
    }

    /** A stop requested while a session exists ends the series at the next teardown,
        whatever that teardown asks for. */
    method StopThenTeardown(behavior: ReloginBehavior)
      requires Valid() && table.Routable() && sessionID != 0
      modifies this, table
      ensures Valid() && table.Routable()
      ensures state == Offline && retryTimer.None? && loginStep.Idle? && |log| > 0 && log[|log| - 1] == GameEnd
    {
      Stop();
      Close(behavior);
      assert log[|log| - 1] == OutcomeLog(EndSeries, old(playerBuilder), old(setting).player)[0];
    }

    /** The first game of a series, from OFFLINE: the login is accepted, the player is
        built, the server opens session `id`, a game is offered, starts and ends. The
        game count is then 1, and the teardown logs in again at once exactly when the
        series asks for more than one game; otherwise the series ends. */
    method FirstGameOfSeries(setting: CSA.CSAGameSetting, playerBuilder: CSA.PlayerBuilder, built: PlayerId,
                             id: int, gameSummary: CSA.CSAGameSummary, playerStates: CSA.CSAPlayerStates,
                             move: CSA.CSASpecialMove, gameResult: CSA.CSAGameResult)
      requires Valid() && table.Routable() && state == Offline && sessionID == 0 && id != 0
      modifies this, table
      ensures Valid() && table.Routable() && repeat == 1 && id !in table.managers
      ensures setting.repeat > 1 ==> state == WaitingLogin && loginStep == AwaitingPlayer(ToHost)
      ensures setting.repeat <= 1 ==> state == Offline && |log| > 0 && log[|log| - 1] == GameEnd
    {
      var rejected := Login(setting, playerBuilder);
      var thrown := OnPlayerBuilt(Ok(built));
      thrown := OnCSALoginCompleted(Ok(id));
      OnGameSummary(gameSummary);
      OnStart(playerStates);
      OnGameResult(move, gameResult);
    }

    /** Between two games of a series there is no session, so a stop is ignored: the
        retry timer still fires and a new login starts. */
    method StopDuringRetryInterval()
      requires Valid() && table.Routable() && state == LoginRetryInterval
      modifies this`stopRequested, this`state, this`loginStep, this`log
      ensures Valid() && table.Routable()
      ensures !stopRequested && state == WaitingLogin && loginStep == AwaitingPlayer(ToHost)
    {
      Stop();
      OnRetryTimer();
    }

    /** A registered session enters GAME. */
    method EnterGame()
      requires Valid() && Registered()
      modifies this`state
      ensures Valid() && state == Game
    {
      state := Game;
    }

    /** A turn boundary: both clocks stop and are set from the server's remaining times,
        the clock of the side to move starts, and the player searches or ponders. */
    method Next(playerStates: CSA.CSAPlayerStates)
      modifies this`blackClock, this`whiteClock, this`log
      ensures blackClock == SyncedClock(Black, turn, playerStates.blackTime, gameSummary)
      ensures whiteClock == SyncedClock(White, turn, playerStates.whiteTime, gameSummary)
      ensures !(blackClock.running && whiteClock.running)
      ensures log == old(log) + TurnLog(turn, player, gameSummary, record, playerStates)
    {
      blackClock := blackClock.(running := false);
      whiteClock := whiteClock.(running := false);
      log := log + [ClockStop(Black), ClockStop(White)];
      var byoyomiMs := TicksToMs(gameSummary.byoyomi, gameSummary.timeUnitMs);
      blackClock := ClockState(false, TicksToMs(playerStates.blackTime, gameSummary.timeUnitMs), byoyomiMs);
      whiteClock := ClockState(false, TicksToMs(playerStates.whiteTime, gameSummary.timeUnitMs), byoyomiMs);
      if turn == Black {
        blackClock := blackClock.(running := true);
      } else {
        whiteClock := whiteClock.(running := true);
      }
      log := log + [ClockStart(turn)];
      if player.None? {
        log := log + [ReportError(NoPlayerMessage)];
        return;
      }
      var timeLimit := TimeLimitOf(gameSummary);
      if IsMyTurn() {
        log := log + [StartSearch(player.value, record, timeLimit,
                                  TicksToMs(playerStates.blackTime, gameSummary.timeUnitMs),
                                  TicksToMs(playerStates.whiteTime, gameSummary.timeUnitMs))];
      } else {
        log := log + [StartPonder(player.value, record, timeLimit, blackClock.timeMs, whiteClock.timeMs)];
      }
    }

    // -------------------------------------------------------------------------
    // The player's events.
    // -------------------------------------------------------------------------

    /** The engine chose a move: its report is kept, and the move goes to the server,
        with the score and the PV only under the Floodgate extension. */
    method OnPlayerMove(move: Move, info: Option<SearchInfo>)
      requires Valid() && table.Routable()
      modifies this`searchInfo, this`log
      ensures Valid() && table.Routable()
      ensures searchInfo == info
      ensures setting.server.protocolVersion == CSA.V121 ==>
        log == old(log) + [ApiMove(sessionID, formatCSAMove(move), None, None)]
      ensures setting.server.protocolVersion == CSA.V121Floodgate ==>
        log == old(log) + [ApiMove(sessionID, formatCSAMove(move),
                                   if info.Some? then info.value.score else None,
                                   FloodgatePV(info, formatCSAMove))]
    {
      searchInfo := info;
      var score: Option<int> := None;
      var pv: Option<string> := None;
      match setting.server.protocolVersion {
        case V121 =>
        case V121Floodgate =>
          score := if info.Some? then info.value.score else None;
          if info.Some? && info.value.pv.Some? {
            pv := FormatPV(info.value.pv.value, formatCSAMove);
          }
      }
      log := log + [ApiMove(sessionID, formatCSAMove(move), score, pv)];
    }

    method OnPlayerResign()
      modifies this`log
      ensures log == old(log) + [ApiResign(sessionID)]
    {
      log := log + [ApiResign(sessionID)];
    }

    method OnPlayerWin()
      modifies this`log
      ensures log == old(log) + [ApiWin(sessionID)]
    {
      log := log + [ApiWin(sessionID)];
    }

    method OnPlayerError(e: string)
      modifies this`log
      ensures log == old(log) + [ReportError(e)]
    {
      log := log + [ReportError(e)];
    }

    /** The engine built for a login reports on the opponent's move. */
    method OnOpponentSearchInfo(info: SearchInfo)
      modifies this`log
      ensures log == old(log) + [UpdateSearchInfo(SenderOpponent, info)]
    {
      log := log + [UpdateSearchInfo(SenderOpponent, info)];
    }

    /** A fire-and-forget request failed; the host hears about it. */
    method OnRequestRejected(request: AsyncRequest, e: string)
      modifies this`log
      ensures log == old(log) + [ReportError(RejectionMessage(request, e))]
    {
      log := log + [ReportError(RejectionMessage(request, e))];
    }
  }

  // ===========================================================================
  // The session table: routes the server's events to the manager owning the session.
  // ===========================================================================



  class SessionTable {
    var managers: map<int, CSAGameManager>

    /** Every routed manager uses this table, owns the id it is stored under, and is in
        a state in which it can take the server's events. */
    ghost predicate Routable()
      reads this, managers.Values`state, managers.Values`loginStep, managers.Values`player, managers.Values`sessionID,
            managers.Values`stopRequested, managers.Values`retryTimer
    {
      forall id :: id in managers ==> managers[id].RoutedAs(this, id)
    }

    constructor ()
      ensures managers == map[] && Routable()
    {
      managers := map[];
    }

    method Entry(sessionID: int, manager: CSAGameManager)
      modifies this
      ensures managers == old(managers)[sessionID := manager]
    {
      managers := managers[sessionID := manager];
    }

    method Release(sessionID: int)
      modifies this
      ensures managers == old(managers) - {sessionID}
    {
      managers := managers - {sessionID};
    }

    // A server event for a session that is not in the table is dropped; otherwise it
    // goes to the manager that owns the session, and no other manager changes.

    method OnCSAGameSummary(sessionID: int, gameSummary: CSA.CSAGameSummary)
      requires Routable()
      modifies managers.Values
      ensures Routable()
      ensures managers == old(managers)
      ensures sessionID in old(managers) ==> old(managers)[sessionID].Summarized(gameSummary)
      ensures forall m :: m in old(managers).Values && (sessionID !in old(managers) || m != old(managers)[sessionID]) ==> unchanged(m)
    {
      if sessionID in managers {
        var manager := managers[sessionID];
        manager.OnGameSummary(gameSummary);
      }
    }

    method OnCSAReject(sessionID: int)
      requires Routable()
      modifies this, managers.Values
      ensures Routable()
      ensures sessionID !in old(managers) ==> unchanged(this)
      ensures sessionID in old(managers) ==>
        var m := old(managers)[sessionID];
        && sessionID !in managers && m.TornDown(ReloginWithInterval, old(m.log))
        && m.KeptGame() && m.record == old(m.record)
      ensures forall m :: m in old(managers).Values && (sessionID !in old(managers) || m != old(managers)[sessionID]) ==> unchanged(m)
    {
      if sessionID in managers {
        var manager := managers[sessionID];
        manager.OnReject();
      }
    }

    method OnCSAStart(sessionID: int, playerStates: CSA.CSAPlayerStates)
      requires Routable()
      modifies managers.Values
      ensures Routable()
      ensures managers == old(managers)
      ensures sessionID in old(managers) ==> old(managers)[sessionID].Started(playerStates)
      ensures forall m :: m in old(managers).Values && (sessionID !in old(managers) || m != old(managers)[sessionID]) ==> unchanged(m)
    {
      if sessionID in managers {
        var manager := managers[sessionID];
        manager.OnStart(playerStates);
      }
    }

    method OnCSAMove(sessionID: int, data: string, playerStates: CSA.CSAPlayerStates)
      requires Routable()
      modifies managers.Values
      ensures Routable()
      ensures managers == old(managers)
      ensures sessionID in old(managers) ==> old(managers)[sessionID].Moved(data, playerStates)
      ensures forall m :: m in old(managers).Values && (sessionID !in old(managers) || m != old(managers)[sessionID]) ==> unchanged(m)
    {
      if sessionID in managers {
        var manager := managers[sessionID];
        manager.OnMove(data, playerStates);
      }
    }

    method OnCSAGameResult(sessionID: int, move: CSA.CSASpecialMove, gameResult: CSA.CSAGameResult)
      requires Routable()
      modifies this, managers.Values
      ensures Routable()
      ensures sessionID !in old(managers) ==> unchanged(this)
      ensures sessionID in old(managers) ==>
        sessionID !in managers && old(managers)[sessionID].Ended(move, gameResult)
      ensures forall m :: m in old(managers).Values && (sessionID !in old(managers) || m != old(managers)[sessionID]) ==> unchanged(m)
    {
      if sessionID in managers {
        var manager := managers[sessionID];
        manager.OnGameResult(move, gameResult);
      }
    }

    method OnCSAClose(sessionID: int)
      requires Routable()
      modifies this, managers.Values
      ensures Routable()
      ensures sessionID !in old(managers) ==> unchanged(this)
      ensures sessionID in old(managers) ==>
        var m := old(managers)[sessionID];
        && sessionID !in managers && m.TornDown(if old(m.setting).autoRelogin then ReloginWithInterval else DoNotRelogin, old(m.log))
        && m.KeptGame() && m.record == old(m.record)
      ensures forall m :: m in old(managers).Values && (sessionID !in old(managers) || m != old(managers)[sessionID]) ==> unchanged(m)
    {
      if sessionID in managers {
        var manager := managers[sessionID];
        manager.OnClose();
      }
    }
  }
}
