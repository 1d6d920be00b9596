/** Japanese notation tables and the display text of a move. */
module ShogiText {
  import opened Wrappers
  import opened Shogi

  // ---------------------------------------------------------------------------
  // Lookup tables. A missing key reads as `undefined`, modelled as None.
  // ---------------------------------------------------------------------------

  /** Full-width digits, as written for files. */
  const MultiByteCharToNumberMap: map<string, int> := map[
    "１" := 1, "２" := 2, "３" := 3, "４" := 4, "５" := 5,
    "６" := 6, "７" := 7, "８" := 8, "９" := 9]

  /** Kanji numerals one to eighteen, as written for ranks and counts. */
  const KanjiToNumberMap: map<string, int> := map[
    "一" := 1, "二" := 2, "三" := 3, "四" := 4, "五" := 5, "六" := 6,
    "七" := 7, "八" := 8, "九" := 9, "十" := 10, "十一" := 11, "十二" := 12,
    "十三" := 13, "十四" := 14, "十五" := 15, "十六" := 16, "十七" := 17, "十八" := 18]

  /** ASCII digits one to nine. */
  const CharToNumberMap: map<string, int> := map[
    "1" := 1, "2" := 2, "3" := 3, "4" := 4, "5" := 5,
    "6" := 6, "7" := 7, "8" := 8, "9" := 9]

  /** Every accepted piece name, including the alternative glyphs. */
  const StringToPieceTypeMap: map<string, PieceType> := map[
    "王" := King, "玉" := King, "飛" := Rook, "龍" := Dragon, "竜" := Dragon,
    "角" := Bishop, "馬" := Horse, "金" := Gold, "銀" := Silver,
    "成銀" := PromSilver, "全" := PromSilver, "桂" := Knight,
    "成桂" := PromKnight, "圭" := PromKnight, "香" := Lance,
    "成香" := PromLance, "杏" := PromLance, "歩" := Pawn, "と" := PromPawn]

  /** Property access on a plain object: the value, or `undefined`. */
  function Lookup<V>(m: map<string, V>, key: string): Option<V> {
    if key in m then Some(m[key]) else None
  }

  function MultiByteCharToNumber(file: string): (r: Option<int>)
    ensures r.Some? ==> 1 <= r.value <= 9
  {
    Lookup(MultiByteCharToNumberMap, file)
  }

  function KanjiToNumber(kanji: string): (r: Option<int>)
    ensures r.Some? ==> 1 <= r.value <= 18
  {
    Lookup(KanjiToNumberMap, kanji)
  }

  function CharToNumber(c: string): (r: Option<int>)
    ensures r.Some? ==> 1 <= r.value <= 9
  {
    Lookup(CharToNumberMap, c)
  }

  /** Every accepted piece name is one of the two spellings of its type, or one of the
      alternative glyphs 王 (king) and 竜 (dragon). */
  function StringToPieceType(piece: string): (r: Option<PieceType>)
    ensures r.Some? ==>
      || piece == PieceTypeToStringForMove(r.value) || piece == PieceTypeToStringForBoard(r.value)
      || (r.value == King && piece == "王") || (r.value == Dragon && piece == "竜")
  {
    Lookup(StringToPieceTypeMap, piece)
  }

  /** Kanji numerals in order; entry n - 1 spells n. */
  const KanjiNumberStrings: seq<string> := [
    "一", "二", "三", "四", "五", "六", "七", "八", "九",
    "十", "十一", "十二", "十三", "十四", "十五", "十六", "十七", "十八"]

  const FileStrings: seq<string> := ["１", "２", "３", "４", "５", "６", "７", "８", "９"]

  /** Array indexing out of range reads as `undefined`. */
  function NumberToKanji(n: int): (r: Option<string>)
    ensures r.Some? <==> 1 <= n <= 18
  {
    if 1 <= n <= |KanjiNumberStrings| then Some(KanjiNumberStrings[n - 1]) else None
  }

  function FileToMultiByteChar(file: int): (r: Option<string>)
    ensures r.Some? <==> 1 <= file <= 9
  {
    if 1 <= file <= |FileStrings| then Some(FileStrings[file - 1]) else None
  }

  /** Ranks are spelled with the same kanji numerals as counts. */
  function RankToKanji(rank: int): (r: Option<string>)
    ensures r == NumberToKanji(rank)
  {
    if 1 <= rank <= |KanjiNumberStrings| then Some(KanjiNumberStrings[rank - 1]) else None
  }

  /** Piece names as written in move notation: the board name, except that the promoted
      silver, knight and lance take two characters. */
  function PieceTypeToStringForMove(pieceType: PieceType): (r: string)
    ensures 1 <= |r| <= 2
    ensures |r| == 2 <==> pieceType == PromSilver || pieceType == PromKnight || pieceType == PromLance
    ensures |r| == 1 ==> r == PieceTypeToStringForBoard(pieceType)
  {
    match pieceType
    case King => "玉"
    case Rook => "飛"
    case Dragon => "龍"
    case Bishop => "角"
    case Horse => "馬"
    case Gold => "金"
    case Silver => "銀"
    case PromSilver => "成銀"
    case Knight => "桂"
    case PromKnight => "成桂"
    case Lance => "香"
    case PromLance => "成香"
    case Pawn => "歩"
    case PromPawn => "と"
  }

  /** Piece names as printed on a board diagram (one character each). */
  function PieceTypeToStringForBoard(pieceType: PieceType): (r: string)
    ensures |r| == 1
  {
    match pieceType
    case King => "玉"
    case Rook => "飛"
    case Dragon => "龍"
    case Bishop => "角"
    case Horse => "馬"
    case Gold => "金"
    case Silver => "銀"
    case PromSilver => "全"
    case Knight => "桂"
    case PromKnight => "圭"
    case Lance => "香"
    case PromLance => "杏"
    case Pawn => "歩"
    case PromPawn => "と"
  }

  /** The display name of a special move; no two share one (SpecialMoveDisplayInjective). */
  function GetSpecialMoveDisplayString(move: SpecialMove): (r: string)
    ensures 2 <= |r| <= 4
  {
    match move
    case Start => "開始局面"
    case Resign => "投了"
    case Interrupt => "中断"
    case Impass => "持将棋"
    case Draw => "引き分け"
    case RepetitionDraw => "千日手"
    case Mate => "詰み"
    case Timeout => "切れ負け"
    case FoulWin => "反則勝ち"
    case FoulLose => "反則負け"
    case EnteringOfKing => "入玉"
    case WinByDefault => "不戦勝"
    case LossByDefault => "不戦敗"
    case SealNextMove => "封じ手"
  }

  // ---------------------------------------------------------------------------
  // Round trips between the tables.
  // ---------------------------------------------------------------------------

  lemma KanjiNumberRoundTrip(n: int)
    requires 1 <= n <= 18
    ensures NumberToKanji(n).Some? && KanjiToNumber(NumberToKanji(n).value) == Some(n)
  {
  }

  lemma KanjiNumberInverse(kanji: string, n: int)
    requires KanjiToNumber(kanji) == Some(n)
    ensures NumberToKanji(n) == Some(kanji)
  {
  }

  lemma FileRoundTrip(file: int)
    requires 1 <= file <= 9
    ensures FileToMultiByteChar(file).Some?
    ensures MultiByteCharToNumber(FileToMultiByteChar(file).value) == Some(file)
  {
  }

  lemma FileInverse(c: string, file: int)
    requires MultiByteCharToNumber(c) == Some(file)
    ensures FileToMultiByteChar(file) == Some(c)
  {
  }

  /** `charToNumber` reads exactly the one-character strings "1".."9", as their values. */
  lemma CharToNumberDigits(c: string)
    ensures CharToNumber(c).Some? <==> |c| == 1 && '1' <= c[0] <= '9'
    ensures CharToNumber(c).Some? ==> CharToNumber(c).value == c[0] as int - '0' as int
  {
    if |c| == 1 && '1' <= c[0] <= '9' {
      var d := c[0];
      assert c == [d];
      if d == '1' { assert c == "1"; }
      else if d == '2' { assert c == "2"; }
      else if d == '3' { assert c == "3"; }
      else if d == '4' { assert c == "4"; }
      else if d == '5' { assert c == "5"; }
      else if d == '6' { assert c == "6"; }
      else if d == '7' { assert c == "7"; }
      else if d == '8' { assert c == "8"; }
      else { assert c == "9"; }
    }
  }

  lemma PieceTypeForMoveRoundTrip(t: PieceType)
    ensures StringToPieceType(PieceTypeToStringForMove(t)) == Some(t)
  {
  }

  lemma PieceTypeForBoardRoundTrip(t: PieceType)
    ensures StringToPieceType(PieceTypeToStringForBoard(t)) == Some(t)
  {
  }

  /** Distinct special moves display distinctly. */
  lemma SpecialMoveDisplayInjective(a: SpecialMove, b: SpecialMove)
    requires GetSpecialMoveDisplayString(a) == GetSpecialMoveDisplayString(b)
    ensures a == b
  {
  }

  // ---------------------------------------------------------------------------
  // Display text of a move: side mark, destination, piece name, then the marks
  // that tell apart same pieces able to reach the destination, then 成 / 不成.
  // ---------------------------------------------------------------------------

  /** JavaScript's `ret += s` when `s` may be `undefined`. */
  function JsText(s: Option<string>): string {
    if s.Some? then s.value else "undefined"
  }

  function SideMark(color: Color, compatible: bool): (r: string)
    ensures |r| == 1
    ensures r[0] in {'☗', '▲'} <==> color == Black
    ensures r[0] in {'▲', '△'} <==> compatible
  {
    match color
    case Black => if compatible then "▲" else "☗"
    case White => if compatible then "△" else "☖"
  }

  /** "同　" when the previous move landed on the same square, else file and rank. */
  function Destination(move: Move, prev: Option<Move>): (r: string)
    ensures |r| >= 2
    ensures r[0] == '同' <==> prev.Some? && prev.value.to == move.to
    ensures r[0] == '同' ==> r == "同　"
  {
    if prev.Some? && prev.value.to == move.to then "同　"
    else JsText(FileToMultiByteChar(move.to.file)) + JsText(RankToKanji(move.to.rank))
  }

  /** The other same-coloured same pieces that can reach the destination:
      the attackers of the square, without the moving piece itself. */
  function OtherAttackers(attackers: seq<Square>, from: MoveFrom): (r: seq<Square>)
    ensures |r| <= |attackers|
    ensures forall s :: s in r <==> s in attackers && (from.InHand? || s != from.square)
  {
    if attackers == [] then []
    else
      var rest := OtherAttackers(attackers[1..], from);
      if from.InHand? || attackers[0] != from.square then [attackers[0]] + rest else rest
  }

  /** A direction as the mover sees it: WHITE's directions are reversed. */
  function Normalize(d: Direction, color: Color): Direction {
    if color == Black then d else Reverse(d)
  }

  /** Vertical components of the directions whose horizontal component is `myH`. */
  function VDirections(dirs: seq<Direction>, myH: HDirection): (r: seq<VDirection>)
    ensures |r| <= |dirs|
    ensures |r| == 0 <==> forall i :: 0 <= i < |dirs| ==> dirs[i].h != myH
  {
    if dirs == [] then []
    else
      var rest := VDirections(dirs[1..], myH);
      if dirs[0].h == myH then [dirs[0].v] + rest else rest
  }

  /** Horizontal components of the directions whose vertical component is `myV`. */
  function HDirections(dirs: seq<Direction>, myV: VDirection): (r: seq<HDirection>)
    ensures |r| <= |dirs|
    ensures |r| == 0 <==> forall i :: 0 <= i < |dirs| ==> dirs[i].v != myV
    ensures |r| > 0 ==> exists i :: 0 <= i < |dirs| && dirs[i].v == myV && dirs[i].h == r[0]
  {
    if dirs == [] then []
    else
      var rest := HDirections(dirs[1..], myV);
      if dirs[0].v == myV then [dirs[0].h] + rest
      else
        assert |rest| > 0 ==> exists i :: 0 <= i < |dirs| && dirs[i].v == myV && dirs[i].h == rest[0] by {
          if |rest| > 0 {
            var j :| 0 <= j < |dirs[1..]| && dirs[1..][j].v == myV && dirs[1..][j].h == rest[0];
            assert dirs[j + 1] == dirs[1..][j];
          }
        }
        rest
  }

  /** 右 / 左 / 直: needed when another piece shares the move's vertical component.
      A horse or dragon (two at most) never uses 直. */
  function HorizontalMark(pieceType: PieceType, myH: HDirection, hDirections: seq<HDirection>): string {
    if |hDirections| == 0 then ""
    else if pieceType == Horse || pieceType == Dragon then
      if myH == Left || (myH == HNone && hDirections[0] == Right) then "右"
      else if myH == Right || (myH == HNone && hDirections[0] == Left) then "左"
      else ""
    else
      match myH
      case Left => "右"
      case HNone => "直"
      case Right => "左"
  }

  /** 引 / 寄 / 上, by the move's vertical component. */
  function VerticalMark(myV: VDirection): string {
    match myV
    case Down => "引"
    case VNone => "寄"
    case Up => "上"
  }

  /** The marks that tell a board move apart from the other pieces whose (normalized)
      directions to the destination are `otherDirs`: a horizontal mark, then a
      vertical mark unless the horizontal one is 直. A vertical mark is needed when
      another piece shares the horizontal component, or when there are other pieces
      and none shares the vertical component. */
  function Disambiguation(pieceType: PieceType, myDir: Direction, otherDirs: seq<Direction>): (r: string)
    ensures |r| <= 2
    ensures |r| == 1 ==> r[0] in "右左直引寄上"
    ensures |r| == 2 ==> r[0] in "右左" && r[1] in "引寄上"
  {
    var hDirections := HDirections(otherDirs, myDir.v);
    var vDirections := VDirections(otherDirs, myDir.h);
    var h := HorizontalMark(pieceType, myDir.h, hDirections);
    var needsVertical := |vDirections| > 0 || (|hDirections| == 0 && |otherDirs| > 0);
    h + (if h != "直" && needsVertical then VerticalMark(myDir.v) else "")
  }

  /** 成 on a promotion; 不成 when a promotable piece starts or ends in the promotion
      zone and does not promote; nothing otherwise. */
  function PromotionMark(move: Move, from: Square, isPromotable: PieceType -> bool,
                         isPromotableRank: (Color, int) -> bool): (r: string)
    ensures r == "成" <==> move.promote
    ensures r == "不成" <==> (!move.promote && isPromotable(move.pieceType)
      && (isPromotableRank(move.color, from.rank) || isPromotableRank(move.color, move.to.rank)))
    ensures r == "" || r == "成" || r == "不成"
  {
    if move.promote then "成"
    else if isPromotable(move.pieceType)
      && (isPromotableRank(move.color, from.rank) || isPromotableRank(move.color, move.to.rank))
    then "不成"
    else ""
  }

  /** Everything after the piece name. A drop is marked 打 only when a piece on the
      board could make the same move. */
  function MoveSuffix(attackers: seq<Square>, move: Move, directionTo: (Square, Square) -> Direction,
                      isPromotable: PieceType -> bool, isPromotableRank: (Color, int) -> bool): (r: string)
    ensures move.from.InHand? ==> (r == "打" <==> |OtherAttackers(attackers, move.from)| > 0) && (r == "" || r == "打")
    ensures move.from.OnBoard? ==> '打' !in r
    ensures move.from.OnBoard? && move.promote ==> |r| > 0 && r[|r| - 1] == '成'
  {
    var others := OtherAttackers(attackers, move.from);
    match move.from
    case InHand => if |others| > 0 then "打" else ""
    case OnBoard(from) =>
      var myDir := Normalize(directionTo(from, move.to), move.color);
      var otherDirs := seq(|others|, i requires 0 <= i < |others| => Normalize(directionTo(others[i], move.to), move.color));
      Disambiguation(move.pieceType, myDir, otherDirs) + PromotionMark(move, from, isPromotable, isPromotableRank)
  }

  /** Appends the marks of `Disambiguation` one at a time, as the display text does. */
  method DisambiguationMarks(pieceType: PieceType, myDir: Direction, otherDirs: seq<Direction>)
    returns (ret: string)
    ensures ret == Disambiguation(pieceType, myDir, otherDirs)
  {
    ret := "";
    var vDirections := VDirections(otherDirs, myDir.h);
    var hDirections := HDirections(otherDirs, myDir.v);
    var noVertical := false;
    if |hDirections| > 0 {
      if pieceType == Horse || pieceType == Dragon {
        if myDir.h == Left || (myDir.h == HNone && hDirections[0] == Right) {
          ret := ret + "右";
        } else if myDir.h == Right || (myDir.h == HNone && hDirections[0] == Left) {
          ret := ret + "左";
        }
      } else {
        match myDir.h {
          case Left => ret := ret + "右";
          case HNone =>
            ret := ret + "直";
            noVertical := true;
          case Right => ret := ret + "左";
        }
      }
    }
    assert ret == HorizontalMark(pieceType, myDir.h, hDirections);
    assert noVertical <==> ret == "直";
    if !noVertical && (|vDirections| > 0 || (|hDirections| == 0 && |otherDirs| > 0)) {
      match myDir.v {
        case Down => ret := ret + "引";
        case VNone => ret := ret + "寄";
        case Up => ret := ret + "上";
      }
    }
  }

  /** The side mark, the destination and the piece name, appended in turn. */
  method DisplayHead(move: Move, prev: Option<Move>, compatible: bool) returns (ret: string)
    ensures ret == SideMark(move.color, compatible) + Destination(move, prev) + PieceTypeToStringForMove(move.pieceType)
  {
    ret := "";
    match move.color {
      case Black => ret := ret + (if compatible then "▲" else "☗");
      case White => ret := ret + (if compatible then "△" else "☖");
    }
    if prev.Some? && prev.value.to == move.to {
      ret := ret + "同　";
    } else {
      ret := ret + JsText(FileToMultiByteChar(move.to.file));
      ret := ret + JsText(RankToKanji(move.to.rank));
    }
    ret := ret + PieceTypeToStringForMove(move.pieceType);
  }

  /** The move's display text. `attackers` is what the position lists as the squares
      of the mover's pieces of the same type that attack the destination;
      `directionTo`, `isPromotable` and `isPromotableRank` are the board geometry. */
  method GetMoveDisplayText(attackers: seq<Square>, move: Move, prev: Option<Move>, compatible: bool,
                            directionTo: (Square, Square) -> Direction,
                            isPromotable: PieceType -> bool, isPromotableRank: (Color, int) -> bool)
    returns (ret: string)
    ensures ret == SideMark(move.color, compatible) + Destination(move, prev)
      + PieceTypeToStringForMove(move.pieceType)
      + MoveSuffix(attackers, move, directionTo, isPromotable, isPromotableRank)
    ensures ret[0] == (match move.color
                       case Black => if compatible then '▲' else '☗'
                       case White => if compatible then '△' else '☖')
    ensures ret[1] == '同' <==> prev.Some? && prev.value.to == move.to
    ensures move.from.InHand? ==>
      ret == SideMark(move.color, compatible) + Destination(move, prev) + PieceTypeToStringForMove(move.pieceType)
        + (if |OtherAttackers(attackers, move.from)| > 0 then "打" else "")
  {
    ret := DisplayHead(move, prev, compatible);
    var others := OtherAttackers(attackers, move.from);
    if move.from.OnBoard? {
      var from := move.from.square;
      var myDir := Normalize(directionTo(from, move.to), move.color);
      var otherDirs := seq(|others|, i requires 0 <= i < |others| => Normalize(directionTo(others[i], move.to), move.color));
      var marks := DisambiguationMarks(move.pieceType, myDir, otherDirs);
      ret := ret + marks;
      if move.promote {
        ret := ret + "成";
      } else if isPromotable(move.pieceType)
        && (isPromotableRank(move.color, from.rank) || isPromotableRank(move.color, move.to.rank)) {
        ret := ret + "不成";
      }
    } else if |others| > 0 {
      ret := ret + "打";
    }
  }

  // ---------------------------------------------------------------------------
  // What the disambiguation marks promise.
  // ---------------------------------------------------------------------------

  /** A horse or dragon is never marked 直. */
  lemma HorseDragonNeverStraight(pieceType: PieceType, myDir: Direction, otherDirs: seq<Direction>)
    requires pieceType == Horse || pieceType == Dragon
    ensures '直' !in Disambiguation(pieceType, myDir, otherDirs)
  {
  }

  /** 直 stands alone: it is never followed by 引, 寄 or 上. */
  lemma StraightExcludesVertical(pieceType: PieceType, myDir: Direction, otherDirs: seq<Direction>)
    ensures '直' in Disambiguation(pieceType, myDir, otherDirs) ==> Disambiguation(pieceType, myDir, otherDirs) == "直"
  {
  }

  /** With no other piece able to reach the square there is nothing to tell apart. */
  lemma NoOthersNoMarks(pieceType: PieceType, myDir: Direction)
    ensures Disambiguation(pieceType, myDir, []) == ""
  {
  }

  /** Whenever another piece can reach the square, the move gets at least one mark. */
  lemma OthersGetMarked(pieceType: PieceType, myDir: Direction, otherDirs: seq<Direction>)
    requires |otherDirs| > 0
    ensures |Disambiguation(pieceType, myDir, otherDirs)| > 0
  {
    var hDirections := HDirections(otherDirs, myDir.v);
    var vDirections := VDirections(otherDirs, myDir.h);
    var h := HorizontalMark(pieceType, myDir.h, hDirections);
    if h == "" && |hDirections| > 0 {
      // Only a horse or dragon moving straight, with the other one straight too:
      // that other one shares the horizontal component, so a vertical mark follows.
      var i :| 0 <= i < |otherDirs| && otherDirs[i].v == myDir.v && otherDirs[i].h == hDirections[0];
      assert otherDirs[i].h == myDir.h;
      assert |vDirections| > 0;
    }
  }
}
