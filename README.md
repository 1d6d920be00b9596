# CSA game session manager and shogi move notation, in Dafny

This project models two parts of a shogi GUI.

**The CSA game session manager** (`CSAStore`, file `csa_store.dfy`). It is a client of
the CSA server protocol ver. 1.2.1 and of its Floodgate extension, which sends a score
and a principal variation (PV) with each move. A `CSAGameManager` logs in, builds a
search engine ("player"), agrees to the games the server offers, and keeps the record
and both clocks in step with the server. After every teardown it decides, by its
`ReloginBehavior` policy, its game count `repeat` and a pending stop request, whether
to end the series, log in again at once, or log in again after a 5-second retry timer.

The manager is a class whose fields mirror the source's fields. A ghost `log` holds
every call to the outside world, in order: server requests, player commands, clock
start and stop, timer set and clear, and host notifications. A `SessionTable` class
holds the `sessionID -> manager` dictionary and the `onCSA*` dispatchers, which route
a server event to the manager that owns the session. The invariant `Routable` of the
table says that every routed manager uses this table, has the id it is stored under,
satisfies `Valid`, and is READY or GAME. Every method that can reach the table
preserves `Routable`.

Three pure pieces come with the manager:
- the mapping from a server-reported end of game to the record's terminal entry;
- the elapsed-time extraction matching `/^.*,T([0-9]+)$/`, including the line
  terminators that `.` does not match;
- the space-joined Floodgate PV string.

**Shogi notation** (`ShogiText`, file `text.dfy`). This part covers:
- the lookup tables between numbers, kanji numerals, full-width digits and piece
  names, with their round trips;
- `getMoveDisplayText`, which builds a move's Japanese notation from pieces:
  - the side mark (☗/☖, or ▲/△ in compatible mode);
  - the destination, or 同　 when the move lands where the previous move did;
  - the piece name;
  - the marks that tell apart same pieces able to reach the square (右/左/直 and
    引/寄/上, or 打 for a drop);
  - 成 or 不成.

The notation is split into specification functions (`SideMark`, `Destination`,
`Disambiguation`, `PromotionMark`, `MoveSuffix`) and methods that build the string by
successive appends with a `noVertical` flag, as the source does. Each method is proved
equal to those functions.

Shared types are in `shogi.dfy` (colours, piece types, special moves, squares, moves,
directions) and `csa.dfy` (CSA protocol records and settings). `wrappers.dfy` defines
`Option` and `Result`. In `Option`, `None` stands for JavaScript's `undefined`.

## Model

| member | source | states |
|---|---|---|
| CSAStore.GameResultToSpecialMove | src/renderer/store/csa.ts:379-415 | RESIGN gives RESIGN and SENNICHITE gives REPETITION_DRAW whatever the result. After a foul, WIN gives FOUL_WIN exactly when the side to move is this client's colour, and LOSE gives FOUL_LOSE exactly then. TIME_UP, JISHOGI and MAX_MOVES map to TIMEOUT, ENTERING_OF_KING and IMPASS. Every other case falls through to DRAW on a draw and INTERRUPT otherwise. |
| CSAStore.TrailingDigitCount | src/renderer/store/csa.ts:333-336 | The count is the length of the maximal run of digits that ends the token: every counted character is a digit, and the one before the run is not. |
| CSAStore.MatchElapsedTime | src/renderer/store/csa.ts:333-336 | A match returns a non-empty digit group d such that the token is p + ",T" + d, with p free of line terminators. |
| CSAStore.DecimalValue | src/renderer/store/csa.ts:334-336 | The `parseInt` of the captured digits: below 10^n for n digits, and at least 10^(n-1) without a leading zero. |
| CSAStore.ElapsedMs | src/renderer/store/csa.ts:333-336 | A token without a ",T<digits>" suffix took 0 ms, and no token took negative time when the unit is non-negative. ElapsedMsOfSplit gives the value when the suffix is present. |
| CSAStore.MatchElapsedTimeOfSplit | src/renderer/store/csa.ts:333-336 | The converse: every token p + ",T" + d with digits d matches with group d, exactly when p has no line terminator. |
| CSAStore.ElapsedMsOfSplit | src/renderer/store/csa.ts:333-336 | A token with a ",T<digits>" suffix took the digits' decimal value times the time unit, in milliseconds. |
| CSAStore.ElapsedMsExamples | src/renderer/store/csa.ts:333-336 | "+7776FU,T37" with a 1000 ms unit took 37000 ms, and "+7776FU" took 0 ms. |
| CSAStore.DropLeadingEmpty | src/renderer/store/csa.ts:519-525 | Leading empty tokens are dropped, because an empty accumulated PV is falsy and gets no separator. The result never starts with an empty token, and it is the tokens themselves when none is empty. |
| CSAStore.DropLeadingEmptySuffix | src/renderer/store/csa.ts:519-525 | What is dropped is a run of empty tokens at the front: the result is the input after some k leading tokens, all of them empty. |
| CSAStore.DropLeadingEmptySnoc | src/renderer/store/csa.ts:519-525 | Dropping leading empty tokens commutes with appending a token, which is what one loop iteration does. |
| CSAStore.JoinSnoc | src/renderer/store/csa.ts:519-525 | Joining a non-empty list with one more token appends a space and that token. |
| CSAStore.JoinStartsNonEmpty | src/renderer/store/csa.ts:519-525 | A join whose first token is non-empty is non-empty, so the next iteration adds a separator. |
| CSAStore.Tokens | src/renderer/store/csa.ts:519-525 | One protocol token per PV move, in order. |
| CSAStore.PVStep | src/renderer/store/csa.ts:520-523 | One loop iteration turns the PV of the first k tokens into the PV of the first k+1. |
| CSAStore.FormatPV | src/renderer/store/csa.ts:518-525 | The loop yields undefined exactly for an empty PV. Otherwise it yields the space-joined tokens after leading empty ones, which are exactly the space-joined tokens when no token is empty. |
| CSAStore.LastSpace | src/renderer/store/csa.ts:519-525 | The index of the last space, or -1 when there is none. |
| CSAStore.SplitJoin | src/renderer/store/csa.ts:519-525 | Tokens without spaces read back from the joined PV string unchanged. |
| CSAStore.FloodgatePV | src/renderer/store/csa.ts:517-525 | No PV text exactly when the report or its PV is missing or the PV has no moves. Otherwise, by SplitJoin, a receiver splitting the text on spaces gets back the moves' protocol tokens, whenever those are non-empty and free of spaces. |
| CSAStore.TeardownDecision | src/renderer/store/csa.ts:231-279 | A stop request, DO_NOT_RELOGIN, or a finished series (repeat >= limit) ends the series. Otherwise the series logs in immediately exactly under RELOGIN_IMMEDIATELY, and after the interval exactly under RELOGIN_WITH_INTERVAL. |
| CSAStore.SyncedClock | src/renderer/store/csa.ts:430-450 | After a turn boundary a clock runs exactly when its colour is to move. |
| CSAStore.TicksRoundTrip | src/renderer/store/csa.ts:459-465 | Scaling ticks by a positive time unit loses nothing: the milliseconds divide back to the ticks with no remainder. |
| CSAStore.TimeLimitOf | src/renderer/store/csa.ts:459-465 | The time limit given to the player holds the summary's total time, byoyomi and increment, each a whole number of time units that divides back to the summary's value. |
| CSAStore.CSAGameManager.constructor | src/renderer/store/csa.ts:58-101 | A new manager is OFFLINE, with no session, no player, no timer, no game count, an empty record and an empty log. |
| CSAStore.CSAGameManager.TurnCommand | src/renderer/store/csa.ts:466-506 | With a player, a turn boundary starts the mover's clock and then tells the engine to search exactly when the side to move is this client's colour (isMyTurn), and to ponder exactly when it is not, on the current record. |
| CSAStore.CSAGameManager.Login | src/renderer/store/csa.ts:161-176 | With a session it rejects with "session already exists", and outside OFFLINE with "unexpected state"; either way it changes nothing. Otherwise it stores the setting and builder, sets repeat to 0, enters WAITING_LOGIN and asks for the player; nothing else changes. |
| CSAStore.CSAGameManager.Relogin | src/renderer/store/csa.ts:178-189 | The state is WAITING_LOGIN and the player build is requested. |
| CSAStore.CSAGameManager.OnPlayerBuilt | src/renderer/store/csa.ts:182-203 | On success the player is kept and the server login is requested; the stop request, the retry timer, the clocks, the builder and the engine's last report stay as they were. On failure the login tears down with RELOGIN_WITH_INTERVAL; the outcome is given by TeardownDecision, and the error goes back to the caller of login or to the host's error handler; both clocks are stopped. |
| CSAStore.CSAGameManager.OnCSALoginCompleted | src/renderer/store/csa.ts:191-203 | On success the session id is stored, the state is READY, the table routes the id to this manager and the host hears gameNext; the player, the stop request, the retry timer, the clocks, the builder and the engine's last report stay as they were. On failure the login tears down as in OnPlayerBuilt, closing the player just built and stopping both clocks. |
| CSAStore.CSAGameManager.FailLogin | src/renderer/store/csa.ts:198-202 | LOGIN_FAILED, then a teardown with RELOGIN_WITH_INTERVAL, which stops both clocks and ends the series or arms the 5000 ms timer, then the error is rethrown to the caller or, for a relogin started by a teardown or a timer, reported to the host. |
| CSAStore.CSAGameManager.OnRetryTimer | src/renderer/store/csa.ts:269-279 | When the retry timer fires, a login starts whose failure goes to the host. |
| CSAStore.CSAGameManager.Stop | src/renderer/store/csa.ts:208-213 | With a session it sets the stop request and asks the server to stop. Without one it changes nothing. |
| CSAStore.CSAGameManager.Logout | src/renderer/store/csa.ts:218-220 | A teardown with DO_NOT_RELOGIN. Unless it is a no-op, it leaves the manager OFFLINE with gameEnd as the last event. |
| CSAStore.CSAGameManager.Close | src/renderer/store/csa.ts:222-280 | OFFLINE and WAITING_LOGIN are no-ops: no field, no table entry and no event changes. Otherwise a pending stop request becomes DO_NOT_RELOGIN and is cleared. The old session id leaves the table and is logged out, the player is closed, both clocks stop and the timer is cleared. Then one of three things happens: OFFLINE with gameEnd, or WAITING_LOGIN with a player build, or LOGIN_RETRY_INTERVAL with a 5000 ms timer. TeardownDecision picks which. |
| CSAStore.CSAGameManager.ContinueSeries | src/renderer/store/csa.ts:261-279 | The three endings of a teardown, chosen by the policy after the stop downgrade and by repeat against the series length. |
| CSAStore.CSAGameManager.ReleaseResources | src/renderer/store/csa.ts:231-259 | The unconditional part of a teardown: no session, which is out of the table; no player; both clocks stopped; OFFLINE; no timer. The events are logout, player close, both clock stops and the timer clear, each only when it applies. |
| CSAStore.CSAGameManager.Disarm | src/renderer/store/csa.ts:244-259 | The player is closed if present, both clocks stop, the state is OFFLINE and a pending timer is cancelled. |
| CSAStore.CSAGameManager.Unroute | src/renderer/store/csa.ts:236-242 | A session is released from the table and logged out, and sessionID becomes 0. The table no longer holds this manager. |
| CSAStore.CSAGameManager.OnGameSummary | src/renderer/store/csa.ts:282-285 | Summarized: the summary is stored and the game id is agreed to under the session id. No other field changes. |
| CSAStore.CSAGameManager.OnReject | src/renderer/store/csa.ts:287-289 | A teardown with RELOGIN_WITH_INTERVAL (TornDown). The setting, game count, summary, record and side to move stay the same (KeptGame). |
| CSAStore.CSAGameManager.OnStart | src/renderer/store/csa.ts:291-320 | Started: repeat grows by one and the state is GAME. The record restarts from the offered position. The host hears the metadata, plus a board flip when autoFlip is set. Then a turn boundary runs: both clocks are synced and only the mover's runs, and the player searches or ponders. The session, player, timer and setting do not change. |
| CSAStore.CSAGameManager.BeginGame | src/renderer/store/csa.ts:293-317 | Everything a game start does before the first turn boundary. |
| CSAStore.CSAGameManager.EnterGame | src/renderer/store/csa.ts:316-317 | A registered session enters GAME and stays valid. |
| CSAStore.CSAGameManager.OnMove | src/renderer/store/csa.ts:322-364 | Moved: an unparsable token is reported, and the record, the side to move and the clocks stay unchanged. A parsed move is appended with its elapsed time from ElapsedMs, and the side to move flips. On this client's own move (IsMyTurn before the move) the engine's last report is recorded (a comment as well if enabled). Then a piece sound plays and a turn boundary runs. The session, state, game count and summary never change. |
| CSAStore.CSAGameManager.RecordMove | src/renderer/store/csa.ts:338-362 | The move is appended and the side to move flips. The annotations and the piece sound follow. |
| CSAStore.CSAGameManager.OnGameResult | src/renderer/store/csa.ts:366-377 | Ended: the GameResultToSpecialMove entry is appended, the record is saved if autoSave is enabled, and a teardown with RELOGIN_IMMEDIATELY follows. The setting, game count and summary do not change. |
| CSAStore.CSAGameManager.RecordResult | src/renderer/store/csa.ts:367-373 | The mapped terminal entry is appended, then SaveRecord is logged when autoSave is enabled. |
| CSAStore.CSAGameManager.OnClose | src/renderer/store/csa.ts:417-423 | A teardown with RELOGIN_WITH_INTERVAL under autoRelogin, and with DO_NOT_RELOGIN otherwise. The setting, game count, summary and record stay the same. |
| CSAStore.CSAGameManager.StopThenTeardown | src/renderer/store/csa.ts:208-279 | stop() with a session, followed by a teardown with any policy, ends in OFFLINE with gameEnd as the last event. No timer is set and no login is in flight. |
| CSAStore.CSAGameManager.FirstGameOfSeries | src/renderer/store/csa.ts:161-377 | Login, player built, session opened, a game offered, started and ended: the game count is 1, and the teardown logs in again at once exactly when the series asks for more than one game, and otherwise ends the series with gameEnd. |
| CSAStore.CSAGameManager.StopDuringRetryInterval | src/renderer/store/csa.ts:208-213 | Without a session (while waiting to retry) stop() is ignored: when the timer fires, a login still starts. |
| CSAStore.CSAGameManager.Next | src/renderer/store/csa.ts:425-507 | Both clocks stop and are set from the server's remaining times. The mover's clock starts, so they never run together. Without a player this is reported as an error. Otherwise the player searches on its own turn and ponders on the opponent's, with the time limit from the summary. |
| CSAStore.CSAGameManager.OnPlayerMove | src/renderer/store/csa.ts:509-530 | The report is kept. Under V121 the move goes to the server with no score and no PV. Under V121_FLOODGATE it goes with the report's score and the space-joined PV tokens, or no PV when there is none. |
| CSAStore.CSAGameManager.OnPlayerResign | src/renderer/store/csa.ts:532-534 | Resigns the session. |
| CSAStore.CSAGameManager.OnPlayerWin | src/renderer/store/csa.ts:536-538 | Declares a win for the session. |
| CSAStore.CSAGameManager.OnPlayerError | src/renderer/store/csa.ts:540-542 | The player's error goes to the host. |
| CSAStore.CSAGameManager.OnOpponentSearchInfo | src/renderer/store/csa.ts:182-189 | The engine's report on the opponent's move is recorded. |
| CSAStore.CSAGameManager.OnRequestRejected | src/renderer/store/csa.ts:466-506 | A rejected search or ponder command is reported to the host with the prefix of the command that failed. A failed logout or player close is reported as is. |
| CSAStore.SessionTable.constructor | src/renderer/store/csa.ts:545 | The table starts empty. |
| CSAStore.SessionTable.Entry | src/renderer/store/csa.ts:547-549 | The id now routes to the manager. |
| CSAStore.SessionTable.Release | src/renderer/store/csa.ts:551-553 | The id no longer routes anywhere. |
| CSAStore.SessionTable.OnCSAGameSummary | src/renderer/store/csa.ts:555-563 | An unknown id changes nothing. Otherwise the owner does what OnGameSummary promises (Summarized), and no other manager changes. |
| CSAStore.SessionTable.OnCSAReject | src/renderer/store/csa.ts:565-570 | An unknown id changes nothing. Otherwise the owner tears down with RELOGIN_WITH_INTERVAL and leaves the table, keeping its setting, game count, summary and record. No other manager changes. |
| CSAStore.SessionTable.OnCSAStart | src/renderer/store/csa.ts:572-580 | An unknown id changes nothing. Otherwise the owner does what OnStart promises (Started), and no other manager changes. |
| CSAStore.SessionTable.OnCSAMove | src/renderer/store/csa.ts:582-591 | An unknown id changes nothing. Otherwise the owner does what OnMove promises (Moved), in both the unparsable and the parsed case, and no other manager changes. |
| CSAStore.SessionTable.OnCSAGameResult | src/renderer/store/csa.ts:593-602 | An unknown id changes nothing. Otherwise the owner does what OnGameResult promises (Ended) and leaves the table, and no other manager changes. |
| CSAStore.SessionTable.OnCSAClose | src/renderer/store/csa.ts:604-609 | An unknown id changes nothing. Otherwise the owner tears down by its autoRelogin setting and leaves the table, keeping its setting, game count, summary and record. No other manager changes. |
| ShogiText.MultiByteCharToNumber | src/common/shogi/text.ts:79-81 | A full-width digit reads as a file from 1 to 9; anything else is undefined. |
| ShogiText.KanjiToNumber | src/common/shogi/text.ts:83-85 | A kanji numeral reads as a number from 1 to 18; anything else is undefined. |
| ShogiText.CharToNumber | src/common/shogi/text.ts:87-89 | An ASCII digit reads as a number from 1 to 9; anything else is undefined. |
| ShogiText.PieceTypeToStringForMove | src/common/shogi/text.ts:129-148 | One or two characters. Two exactly for the promoted silver, knight and lance; otherwise the move name is the board name. |
| ShogiText.NumberToKanji | src/common/shogi/text.ts:117-119 | Defined exactly for 1 to 18. |
| ShogiText.FileToMultiByteChar | src/common/shogi/text.ts:121-123 | Defined exactly for files 1 to 9. |
| ShogiText.RankToKanji | src/common/shogi/text.ts:125-127 | Ranks use the same kanji numerals as NumberToKanji. |
| ShogiText.PieceTypeToStringForBoard | src/common/shogi/text.ts:150-169 | Every board name is one character. |
| ShogiText.KanjiNumberRoundTrip | src/common/shogi/text.ts:26-45 | For 1 to 18, reading back the kanji of n gives n. |
| ShogiText.KanjiNumberInverse | src/common/shogi/text.ts:95-119 | Every kanji that reads as n is the kanji written for n. |
| ShogiText.FileRoundTrip | src/common/shogi/text.ts:15-25 | For files 1 to 9, reading back the full-width digit gives the file. |
| ShogiText.FileInverse | src/common/shogi/text.ts:115-123 | Every full-width digit that reads as a file is the one written for it. |
| ShogiText.CharToNumberDigits | src/common/shogi/text.ts:46-56 | "1" to "9" read as 1 to 9, and nothing else reads as a number. |
| ShogiText.PieceTypeForMoveRoundTrip | src/common/shogi/text.ts:129-148 | For all 14 piece types, reading back the move notation name gives the type. |
| ShogiText.PieceTypeForBoardRoundTrip | src/common/shogi/text.ts:150-169 | For all 14 piece types, reading back the board name gives the type. |
| ShogiText.StringToPieceType | src/common/shogi/text.ts:57-93 | Every accepted name is the move or board name of its type, or 王 or 竜. |
| ShogiText.SpecialMoveDisplayInjective | src/common/shogi/text.ts:171-190 | Different special moves display differently. |
| ShogiText.GetSpecialMoveDisplayString | src/common/shogi/text.ts:171-190 | Every special move has a display name of two to four characters. SpecialMoveDisplayInjective shows that no two share one. |
| ShogiText.SideMark | src/common/shogi/text.ts:203-210 | One character: ☗ or ▲ exactly for BLACK, and ▲ or △ exactly in compatible mode. |
| ShogiText.Destination | src/common/shogi/text.ts:212-218 | It starts with 同, and is then "同　", exactly when a previous move landed on the same square. |
| ShogiText.OtherAttackers | src/common/shogi/text.ts:222-227 | The attackers without the moving piece's own square. A drop keeps all of them. |
| ShogiText.VDirections | src/common/shogi/text.ts:240-243 | Empty exactly when no other piece shares the move's horizontal component. |
| ShogiText.HDirections | src/common/shogi/text.ts:244-247 | Empty exactly when no other piece shares the move's vertical component. Its first entry is the horizontal component of such a piece. |
| ShogiText.PromotionMark | src/common/shogi/text.ts:300-310 | 成 exactly on a promotion. 不成 exactly when a promotable piece does not promote and its from-rank or to-rank is a promotion rank. Nothing otherwise. |
| ShogiText.Disambiguation | src/common/shogi/text.ts:248-299 | At most two marks: one of 右左直引寄上, or 右/左 followed by 引/寄/上. |
| ShogiText.MoveSuffix | src/common/shogi/text.ts:300-314 | A drop gets 打 exactly when another same piece could reach the square, and nothing otherwise. A board move never gets 打, and a promotion ends with 成. |
| ShogiText.DisambiguationMarks | src/common/shogi/text.ts:248-299 | The appends with the noVertical flag build exactly Disambiguation. |
| ShogiText.DisplayHead | src/common/shogi/text.ts:202-219 | The appends build the side mark, the destination and the piece name. |
| ShogiText.GetMoveDisplayText | src/common/shogi/text.ts:192-316 | The text is side mark + destination + piece name + suffix. Its first character is ☗/☖, or ▲/△ when compatible. Its second is 同 exactly when the previous move landed on the same square. A drop gets 打 exactly when another same piece could reach the square, and nothing otherwise. |
| ShogiText.HorseDragonNeverStraight | src/common/shogi/text.ts:251-266 | A horse or dragon never gets 直. |
| ShogiText.StraightExcludesVertical | src/common/shogi/text.ts:267-287 | When 直 appears it is the whole disambiguation, never followed by 引/寄/上. |
| ShogiText.NoOthersNoMarks | src/common/shogi/text.ts:248-299 | With no other piece able to reach the square there are no marks. |
| ShogiText.OthersGetMarked | src/common/shogi/text.ts:248-299 | Whenever another piece can reach the square, at least one mark is written. |

A `stop()` made while a session exists sets the stop request (Stop's postcondition). The
next teardown then passes that request to `TeardownDecision`, whose first postcondition
makes the outcome end the series, whatever policy the teardown asked for.
`StopThenTeardown` states this for one stop followed by one teardown. A `stop()` made
with no session, while waiting to retry or while a login is in flight between two games
of a series, is ignored, as in the source's `if (this.sessionID)`, and the series goes
on. `StopDuringRetryInterval` shows this.

## Left out

- I/O. Calls to the server, the player, the clocks, the record manager and the host
  callbacks are events appended to the ghost `log`; their effects are not modelled.
- The awaits in `relogin` are two continuation methods, `OnPlayerBuilt` and
  `OnCSALoginCompleted`. The environment calls them with the result of the player
  build and of the server login, and the field `loginStep` records which one is awaited.
  The promise returned by `login` is the out-parameter `rejected` (a synchronous
  rejection) and the `thrown` of the continuations (a later one).
- `setTimeout`/`clearTimeout` are modelled as the `Option` field `retryTimer` holding
  the delay. `OnRetryTimer` is the timer firing; like the source, it leaves the stale
  handle in place.
- Player, PlayerBuilder, Clock and RecordManager are not part of this model.
  - A player is an identity.
  - A clock is whether it runs plus the times of its last setup.
  - The record is its initial position, a sequence of entries and the side to move.
  - Importing a position is the constructor parameter `colorOfPosition`, which gives
    the side to move of the position text.
- `parseCSAMove` and `formatCSAMove` are not part of this model; they are constructor
  parameters. The parser is given the initial position and the entries, which together
  stand for the current position.
- The constructor takes the initial setting, game summary and player builder as
  parameters in place of the source's defaults.
- CSAStore.CSAGameManager.constructor: the source is handed its RecordManager and both
  Clocks, which may already hold a record or running clocks. The model always starts
  with an empty record (from the given position) and two stopped clocks.
- Between the games of a series, a `stop()` (no session) does not end the series; the
  model states this as the source does it and promises "stop ends the series" only for
  a stop made with a session.
- Time limits and the byoyomi in seconds (`/ 1e3`) are kept in integer milliseconds
  (`TicksToMs`), because fractional seconds are not modelled.
- CSAStore.ElapsedMs: reads the digits as an unbounded integer. It does not model the
  precision loss of `parseInt` and `Number` past 2^53.
- The string-tagged `on(...)` handler registration and the beep callbacks of the
  clocks are not modelled. `onFlipBoard` always has a handler, so the model logs
  FlipBoard whenever autoFlip is set.
- Errors passed to `onError` are `ReportError` events carrying their message.
  Rejections of the promises the manager does not await (logout, player close, search,
  ponder) are delivered by the environment through `OnRequestRejected`.
- Lookups on plain JavaScript objects are modelled as map lookups, so keys inherited
  from the object prototype, such as "constructor", do not read as values.
- CSAStore.CSAGameManager.OnCSALoginCompleted: requires a non-zero session id on
  success, which the server always assigns; the source would treat 0 as "no session".
- CSAStore.CSAGameManager.OnStart and CSAStore.CSAGameManager.OnMove require the
  session to be READY or GAME. The session table only routes such managers, so this
  holds at every dispatch, and a direct call in another state is not modelled.
- CSAStore.CSAGameManager.Next: the invariant that at most one clock runs is stated as
  Next's postcondition and Close's (both stopped), not as part of `Valid`.
- Errors thrown synchronously by `entrySession` or `onGameNext` inside the `try` of
  `relogin` are not modelled: those are plain assignments and a host callback.
- Directions are pairs of a horizontal and a vertical component. `Square.directionTo`,
  `listAttackersByPiece`, `Piece.isPromotable` and `isPromotableRank` are parameters;
  the files that define them (square.ts, direction.ts, position.ts, piece.ts) are
  not part of this model.
- Type definitions from other files (common/csa.ts, common/settings/csa.ts,
  common/shogi) are modelled only as far as the manager uses them.
