/** The topology mapper of the canonical client: where a token at a given
    path position is drawn, and the static yard and start cells. */
module Topology {
  import opened LudoTypes

  /** PATH_COORDS with its `|| { r: 0, c: 0 }` fallback: the cell of a ring position. */
  function RingCell(pos: int): (cell: Cell)
    ensures 1 <= pos <= MaxMainPath ==> OnBoard(cell)
    ensures !(1 <= pos <= MaxMainPath) ==> cell == NoCell
  {
    match pos
    case 1 => Cell(14, 7)
    case 2 => Cell(13, 7)
    case 3 => Cell(12, 7)
    case 4 => Cell(11, 7)
    case 5 => Cell(10, 7)
    case 6 => Cell(9, 7)
    case 7 => Cell(9, 8)
    case 8 => Cell(9, 9)
    case 9 => Cell(9, 10)
    case 10 => Cell(9, 11)
    case 11 => Cell(9, 12)
    case 12 => Cell(9, 13)
    case 13 => Cell(8, 13)
    case 14 => Cell(7, 13)
    case 15 => Cell(7, 12)
    case 16 => Cell(7, 11)
    case 17 => Cell(7, 10)
    case 18 => Cell(7, 9)
    case 19 => Cell(7, 8)
    case 20 => Cell(6, 8)
    case 21 => Cell(5, 8)
    case 22 => Cell(4, 8)
    case 23 => Cell(3, 8)
    case 24 => Cell(2, 8)
    case 25 => Cell(1, 8)
    case 26 => Cell(1, 7)
    case 27 => Cell(2, 7)
    case 28 => Cell(3, 7)
    case 29 => Cell(4, 7)
    case 30 => Cell(5, 7)
    case 31 => Cell(6, 7)
    case 32 => Cell(7, 7)
    case 33 => Cell(7, 6)
    case 34 => Cell(7, 5)
    case 35 => Cell(7, 4)
    case 36 => Cell(7, 3)
    case 37 => Cell(7, 2)
    case 38 => Cell(7, 1)
    case 39 => Cell(8, 1)
    case 40 => Cell(9, 2)
    case 41 => Cell(9, 3)
    case 42 => Cell(9, 4)
    case 43 => Cell(9, 5)
    case 44 => Cell(9, 6)
    case 45 => Cell(9, 7)
    case 46 => Cell(10, 8)
    case 47 => Cell(11, 8)
    case 48 => Cell(12, 8)
    case 49 => Cell(13, 8)
    case 50 => Cell(14, 8)
    case 51 => Cell(15, 8)
    case 52 => Cell(15, 9)
    case _ => NoCell
  }

  /** The ring position where a colour's tokens enter the board (START_INDEX / startPos). */
  function StartIndex(color: Color): (i: int)
    ensures 1 <= i <= MaxMainPath && (i - 1) % 13 == 0
  {
    match color
    case Red => 1
    case Green => 14
    case Yellow => 27
    case Blue => 40
  }

  /** The five home-column cells of a colour, nearest the centre first,
      written out cell by cell (the strips the comments of the mapper describe). */
  function HomeStrip(color: Color): (s: seq<Cell>)
    ensures |s| == 5 && forall k :: 0 <= k < |s| ==> OnBoard(s[k]) && s[k] != Centre
  {
    match color
    case Red => [Cell(8, 7), Cell(8, 6), Cell(8, 5), Cell(8, 4), Cell(8, 3)]
    case Green => [Cell(7, 8), Cell(6, 8), Cell(5, 8), Cell(4, 8), Cell(3, 8)]
    case Yellow => [Cell(8, 9), Cell(8, 10), Cell(8, 11), Cell(8, 12), Cell(8, 13)]
    case Blue => [Cell(9, 8), Cell(10, 8), Cell(11, 8), Cell(12, 8), Cell(13, 8)]
  }

  /** mapPathToGrid: cell of a path position for a colour. */
  function MapPathToGrid(color: Color, pos: int): (cell: Cell)
    ensures pos == TotalPathLength ==> cell == Centre
    ensures 53 <= pos <= 57 ==> cell == HomeStrip(color)[pos - 53]
    ensures 53 <= pos <= 57 ==> cell != Centre && Distance(cell, Centre) == pos - MaxMainPath
    ensures 1 <= pos <= MaxMainPath ==> OnBoard(cell)
    ensures !(1 <= pos <= TotalPathLength) ==> cell == NoCell
  {
    if pos == TotalPathLength then Centre
    else if 53 <= pos < TotalPathLength then
      var homeOffset := pos - 52;
      match color
      case Red => Cell(8, 7 - (homeOffset - 1))
      case Green => Cell(7 - (homeOffset - 1), 8)
      case Yellow => Cell(8, 9 + (homeOffset - 1))
      case Blue => Cell(9 + (homeOffset - 1), 8)
    else RingCell(pos)
  }

  /** A ring position is drawn at the same cell whatever the colour. */
  lemma RingIgnoresColour(a: Color, b: Color, pos: int)
    requires !(53 <= pos <= 57)
    ensures MapPathToGrid(a, pos) == MapPathToGrid(b, pos)
  {
  }

  /** Each home strip is a straight run of adjacent cells leading away from the
      centre, on row 8 or column 8. */
  lemma HomeStripShape(color: Color, k: int)
    requires 0 <= k < 5
    ensures var s := HomeStrip(color); |s| == 5 && (s[k].r == 8 || s[k].c == 8)
    ensures k == 0 ==> Distance(HomeStrip(color)[0], Centre) == 1
    ensures k < 4 ==> Distance(HomeStrip(color)[k], HomeStrip(color)[k + 1]) == 1
  {
  }

  /** The static start squares painted on the board (P1, P14, P27, P40). */
  function StaticStartCell(color: Color): (cell: Cell)
    ensures OnBoard(cell) && QuadrantColour(cell).None?
  {
    match color
    case Red => Cell(14, 7)
    case Green => Cell(7, 13)
    case Yellow => Cell(2, 7)
    case Blue => Cell(9, 2)
  }

  /** A colour's ring entry is drawn exactly on the start square painted for it,
      and the four entry cells are pairwise distinct. */
  lemma StartCellsMatchRing(a: Color, b: Color)
    ensures MapPathToGrid(a, StartIndex(a)) == StaticStartCell(a)
    ensures a != b ==> StaticStartCell(a) != StaticStartCell(b)
  {
  }

  /** The ring table is neither injective nor disjoint from the home strips. */
  lemma RingTableAnomalies(color: Color)
    ensures MapPathToGrid(color, 6) == MapPathToGrid(color, 45)
    ensures MapPathToGrid(color, 13) == HomeStrip(Yellow)[4]
    ensures MapPathToGrid(color, 7) == HomeStrip(Blue)[0]
  {
  }

  /** YARD_AREAS with the `|| YARD_AREAS[color][0]` fallback. */
  function YardSlot(color: Color, idx: int): (cell: Cell)
    ensures OnBoard(cell)
    ensures QuadrantColour(cell) == Some(color)
  {
    var slots := match color
      case Red => [Cell(12, 3), Cell(12, 4), Cell(13, 3), Cell(13, 4)]
      case Green => [Cell(3, 12), Cell(3, 13), Cell(4, 12), Cell(4, 13)]
      case Yellow => [Cell(3, 3), Cell(3, 4), Cell(4, 3), Cell(4, 4)]
      case Blue => [Cell(12, 12), Cell(12, 13), Cell(13, 12), Cell(13, 13)];
    if 0 <= idx < 4 then slots[idx] else slots[0]
  }

  /** The colour of the 6x6 corner quadrant a cell is painted in, if any. */
  function QuadrantColour(cell: Cell): Option<Color> {
    if cell.r <= 6 && cell.c <= 6 then Some(Yellow)
    else if cell.r <= 6 && cell.c >= 10 then Some(Green)
    else if cell.r >= 10 && cell.c <= 6 then Some(Red)
    else if cell.r >= 10 && cell.c >= 10 then Some(Blue)
    else None
  }

  /** The four yard slots of a colour are distinct. */
  lemma YardSlotsDistinct(color: Color, i: int, j: int)
    requires 0 <= i < 4 && 0 <= j < 4 && i != j
    ensures YardSlot(color, i) != YardSlot(color, j)
  {
  }
}
