/** The static board classifier: for a grid cell, its background class, its
    tile type and its label, decided by a chain of region tests in which the
    first matching region wins. */
module TileProps {
  import opened LudoTypes

  datatype TileType = Base | Center | HomePath | StartPoint | SafePath | PathTile | ErrorTile

  /** `text` is None where the returned record has no text property at all. */
  datatype TileProps = TileProps(color: string, kind: TileType, text: Option<string>)

  /** The board's colour table. */
  const RedBase: string := "bg-red-500"
  const GreenBase: string := "bg-green-500"
  const YellowBase: string := "bg-yellow-500"
  const BlueBase: string := "bg-blue-500"
  const PathColor: string := "bg-white"
  const HomeCenterColor: string := "bg-gray-700"
  const SafeColor: string := "bg-gray-400"
  const ErrorColor: string := "bg-black"
  /** Appended to a start point's colour. */
  const Emphasis: string := " font-bold text-lg"

  /** The start-point label as the classifier spells it: the three characters
      a UTF-8 black star turns into when its bytes are read as Windows-1252. */
  const StarAsWritten: string := "â˜…"
  /** The black star the canonical board draws on safe squares. */
  const BlackStar: string := "★"

  /** The ten safe squares, as (row, col). */
  const SafeSquares: seq<(int, int)> :=
    [(6, 5), (8, 9), (12, 8), (1, 6), (5, 8), (9, 6), (13, 8), (8, 5), (6, 9), (2, 6)]

  predicate IsSafeSquare(row: int, col: int) {
    exists k :: 0 <= k < |SafeSquares| && SafeSquares[k] == (row, col)
  }

  /** `[...].some(([r, c]) => r === row && c === col)` */
  function Some10(row: int, col: int, k: nat): (b: bool)
    requires k <= |SafeSquares|
    decreases |SafeSquares| - k
  {
    k < |SafeSquares| && (SafeSquares[k] == (row, col) || Some10(row, col, k + 1))
  }

  lemma {:induction false} Some10Exact(row: int, col: int, k: nat)
    requires k <= |SafeSquares|
    ensures Some10(row, col, k) <==> exists j :: k <= j < |SafeSquares| && SafeSquares[j] == (row, col)
    decreases |SafeSquares| - k
  {
    if k < |SafeSquares| {
      Some10Exact(row, col, k + 1);
    }
  }

  predicate OnHomeStrip(row: int, col: int) {
    (col == 7 && 1 <= row <= 5) || (row == 7 && 9 <= col <= 13)
    || (col == 7 && 9 <= row <= 13) || (row == 7 && 1 <= col <= 5)
  }

  predicate IsStartPoint(row: int, col: int) {
    (row, col) == (6, 1) || (row, col) == (1, 8) || (row, col) == (8, 13) || (row, col) == (13, 6)
  }

  predicate InCross(row: int, col: int) {
    (6 <= row <= 8) || (6 <= col <= 8)
  }

  function GetTileProps(row: int, col: int): (p: TileProps)
    ensures p.kind != ErrorTile
  {
    if row < 6 && col < 6 then TileProps(RedBase, Base, Some(if row == 3 && col == 3 then "RED" else ""))
    else if row < 6 && col > 8 then TileProps(GreenBase, Base, Some(if row == 3 && col == 11 then "GREEN" else ""))
    else if row > 8 && col < 6 then TileProps(YellowBase, Base, Some(if row == 11 && col == 3 then "YELLOW" else ""))
    else if row > 8 && col > 8 then TileProps(BlueBase, Base, Some(if row == 11 && col == 11 then "BLUE" else ""))
    else if 6 <= row <= 8 && 6 <= col <= 8 then
      TileProps(HomeCenterColor, Center, Some(if row == 7 && col == 7 then "HOME" else ""))
    else if OnHomeStrip(row, col) then
      var homeColor :=
        if 1 <= row <= 5 && col == 7 then "bg-red-400"
        else if row == 7 && 9 <= col <= 13 then "bg-green-400"
        else if 9 <= row <= 13 && col == 7 then "bg-yellow-400"
        else if row == 7 && 1 <= col <= 5 then "bg-blue-400"
        else "";
      TileProps(homeColor, HomePath, None)
    else if IsStartPoint(row, col) then
      var startColor :=
        if row == 6 && col == 1 then "bg-red-300"
        else if row == 1 && col == 8 then "bg-green-300"
        else if row == 8 && col == 13 then "bg-yellow-300"
        else if row == 13 && col == 6 then "bg-blue-300"
        else "";
      TileProps(startColor + Emphasis, StartPoint, Some(StarAsWritten))
    else if InCross(row, col) then
      var isSafeZone := Some10(row, col, 0);
      TileProps(if isSafeZone then SafeColor else PathColor, if isSafeZone then SafePath else PathTile, None)
    else TileProps(ErrorColor, ErrorTile, None)
  }

  /** The four 6x6 corners are bases in their owner's colour, labelled only at
      their middle cell. */
  lemma BaseCorners(row: int, col: int)
    ensures GetTileProps(row, col).kind == Base <==> (row < 6 || row > 8) && (col < 6 || col > 8)
    ensures row < 6 && col < 6 ==> GetTileProps(row, col).color == RedBase
    ensures row < 6 && col > 8 ==> GetTileProps(row, col).color == GreenBase
    ensures row > 8 && col < 6 ==> GetTileProps(row, col).color == YellowBase
    ensures row > 8 && col > 8 ==> GetTileProps(row, col).color == BlueBase
    ensures GetTileProps(row, col).kind == Base ==>
              (GetTileProps(row, col).text != Some("") <==>
                 (row, col) in {(3, 3), (3, 11), (11, 3), (11, 11)})
  {
  }

  /** The 3x3 centre is the home triangle, labelled HOME only in its middle. */
  lemma CentreBlock(row: int, col: int)
    ensures GetTileProps(row, col).kind == Center <==> 6 <= row <= 8 && 6 <= col <= 8
    ensures GetTileProps(row, col).kind == Center ==>
              GetTileProps(row, col).color == HomeCenterColor &&
              (GetTileProps(row, col).text == Some("HOME") <==> row == 7 && col == 7)
  {
  }

  /** Each home strip is coloured after the player whose strip it is. */
  lemma HomeStrips(row: int, col: int)
    ensures GetTileProps(row, col).kind == HomePath <==> OnHomeStrip(row, col)
    ensures col == 7 && 1 <= row <= 5 ==> GetTileProps(row, col).color == "bg-red-400"
    ensures row == 7 && 9 <= col <= 13 ==> GetTileProps(row, col).color == "bg-green-400"
    ensures col == 7 && 9 <= row <= 13 ==> GetTileProps(row, col).color == "bg-yellow-400"
    ensures row == 7 && 1 <= col <= 5 ==> GetTileProps(row, col).color == "bg-blue-400"
  {
  }

  /** Exactly four cells are start points, each in its own colour. */
  lemma StartPoints(row: int, col: int)
    ensures GetTileProps(row, col).kind == StartPoint <==> IsStartPoint(row, col)
    ensures (row, col) == (6, 1) ==> GetTileProps(row, col).color == "bg-red-300" + Emphasis
    ensures (row, col) == (1, 8) ==> GetTileProps(row, col).color == "bg-green-300" + Emphasis
    ensures (row, col) == (8, 13) ==> GetTileProps(row, col).color == "bg-yellow-300" + Emphasis
    ensures (row, col) == (13, 6) ==> GetTileProps(row, col).color == "bg-blue-300" + Emphasis
  {
  }

  /** No safe square lies in a region an earlier test claims. */
  lemma SafeSquaresOnOpenTrack(k: nat)
    requires k < |SafeSquares|
    ensures InCross(SafeSquares[k].0, SafeSquares[k].1)
    ensures !(6 <= SafeSquares[k].0 <= 8 && 6 <= SafeSquares[k].1 <= 8)
    ensures !OnHomeStrip(SafeSquares[k].0, SafeSquares[k].1)
    ensures !IsStartPoint(SafeSquares[k].0, SafeSquares[k].1)
  {
  }

  /** The remaining cross cells are safe exactly when listed, plain track
      otherwise. */
  lemma {:induction false} TrackCells(row: int, col: int)
    ensures GetTileProps(row, col).kind == SafePath <==> IsSafeSquare(row, col)
    ensures GetTileProps(row, col).kind == PathTile <==>
              InCross(row, col) && !(6 <= row <= 8 && 6 <= col <= 8) && !OnHomeStrip(row, col)
              && !IsStartPoint(row, col) && !IsSafeSquare(row, col)
    ensures GetTileProps(row, col).kind == SafePath ==> GetTileProps(row, col).color == SafeColor
    ensures GetTileProps(row, col).kind == PathTile ==> GetTileProps(row, col).color == PathColor
  {
    Some10Exact(row, col, 0);
    if IsSafeSquare(row, col) {
      var k :| 0 <= k < |SafeSquares| && SafeSquares[k] == (row, col);
      SafeSquaresOnOpenTrack(k);
    }
  }

  /** The fallback is dead: every cell of every size of board is classified,
      since outside the cross both coordinates lie in a corner. */
  lemma NoErrorTile(row: int, col: int)
    ensures GetTileProps(row, col).kind != ErrorTile
    ensures GetTileProps(row, col).color != ErrorColor
  {
  }

  /** The start-point label is not the star the rest of the board uses: it is
      three characters long. */
  lemma StarLabelMisencoded(row: int, col: int)
    requires IsStartPoint(row, col)
    ensures GetTileProps(row, col).text == Some(StarAsWritten)
    ensures |StarAsWritten| == 3 && StarAsWritten != BlackStar
  {
  }
}
