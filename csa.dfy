/** Messages and settings of the CSA server protocol (ver. 1.2.1 with its Floodgate
    extension) as the session manager sees them. */
module CSA {
  import opened Shogi

  /** The server's end-of-game reason; codes the manager does not distinguish are `OtherSpecialMove`. */
  datatype CSASpecialMove =
    | Resign | Sennichite | OuteSennichite | IllegalMove | IllegalAction
    | TimeUp | Jishogi | MaxMoves | OtherSpecialMove(code: string)

  /** The server's verdict for this client; other verdicts are `OtherResult`. */
  datatype CSAGameResult = Win | Lose | Draw | OtherResult(code: string)

  /** Match metadata. Times are in protocol ticks of `timeUnitMs` milliseconds. */
  datatype CSAGameSummary = CSAGameSummary(
    id: string, myColor: Color, blackPlayerName: string, whitePlayerName: string,
    position: string, timeUnitMs: int, totalTime: int, byoyomi: int, increment: int)

  /** Remaining time of each side, in ticks, as the server reports it. */
  datatype CSAPlayerStates = CSAPlayerStates(blackTime: int, whiteTime: int)

  /** V121 is the base protocol; V121Floodgate also sends a score and a PV with each move. */
  datatype CSAProtocolVersion = V121 | V121Floodgate

  datatype CSAServerSetting = CSAServerSetting(
    protocolVersion: CSAProtocolVersion, host: string, port: int, id: string, password: string)

  /** How to start the search engine (opaque here). */
  datatype PlayerSetting = PlayerSetting(name: string, uri: string)

  /** The factory that builds a player from a `PlayerSetting` (opaque here). */
  datatype PlayerBuilder = PlayerBuilder(name: string)

  /** `repeat` is the number of games to play in a series. */
  datatype CSAGameSetting = CSAGameSetting(
    player: PlayerSetting, server: CSAServerSetting, autoFlip: bool, enableComment: bool,
    enableAutoSave: bool, autoRelogin: bool, repeat: int)
}
