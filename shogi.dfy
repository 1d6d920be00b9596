/** The game's vocabulary that the notation tables and the session manager share:
    colours, piece types, squares, moves, special (terminal) moves and directions. */
module Shogi {

  /** The side to move: BLACK (sente) moves first. */
  datatype Color = Black | White

  function Opposite(c: Color): Color {
    if c == Black then White else Black
  }

  datatype PieceType =
    | King | Rook | Dragon | Bishop | Horse | Gold | Silver | PromSilver
    | Knight | PromKnight | Lance | PromLance | Pawn | PromPawn

  /** Terminal or non-move record entries. */
  datatype SpecialMove =
    | Start | Resign | Interrupt | Impass | Draw | RepetitionDraw | Mate | Timeout
    | FoulWin | FoulLose | EnteringOfKing | WinByDefault | LossByDefault | SealNextMove

  /** A board square by file (column) and rank (row); a legal board uses 1..9 for both. */
  datatype Square = Square(file: int, rank: int)

  /** Where a move starts: a square on the board, or the hand (a drop). */
  datatype MoveFrom = OnBoard(square: Square) | InHand

  datatype Move = Move(from: MoveFrom, to: Square, color: Color, pieceType: PieceType, promote: bool)

  /** The horizontal and vertical components of a direction, seen from BLACK. */
  datatype HDirection = Left | HNone | Right
  datatype VDirection = Up | VNone | Down

  datatype Direction = Direction(h: HDirection, v: VDirection)

  /** The opposite direction: how the same step looks from the other side. */
  function Reverse(d: Direction): Direction {
    Direction(
      match d.h case Left => Right case HNone => HNone case Right => Left,
      match d.v case Up => Down case VNone => VNone case Down => Up)
  }
}
