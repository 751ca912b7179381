/** The first board client variant: its own position-to-grid table, its
    client-side move check, and the squares dictionary it builds from a
    server snapshot, keyed by the text `${r}-${c}`. */
module WorkOne {
  import opened LudoTypes
  import opened Squares
  import BoardState
  import WorkBase

  /* ---------------- Position lookup ---------------- */

  /** The two record shapes the lookup returns: `{row, col}` for the home
      column and the centre, `{r, c}` for the ring and the fallback. */
  datatype GridPoint = RowCol(row: int, col: int) | RC(r: int, c: int)

  /** `CORRECT_PATH_MAP`: the ring cell of positions 1..52; any other key is
      missing and the lookup falls back to `{r: 0, c: 0}`. */
  function CorrectPathMap(pos: int): (cell: Option<Cell>)
    ensures cell.Some? <==> 1 <= pos <= MaxMainPath
    ensures cell.Some? ==> 1 <= cell.value.r <= 14 && 1 <= cell.value.c <= 14
  {
    match pos
    case 1 => Some(Cell(13, 6))
    case 2 => Some(Cell(12, 6))
    case 3 => Some(Cell(11, 6))
    case 4 => Some(Cell(10, 6))
    case 5 => Some(Cell(9, 6))
    case 6 => Some(Cell(8, 6))
    case 7 => Some(Cell(8, 5))
    case 8 => Some(Cell(8, 4))
    case 9 => Some(Cell(8, 3))
    case 10 => Some(Cell(8, 2))
    case 11 => Some(Cell(8, 1))
    case 12 => Some(Cell(7, 1))
    case 13 => Some(Cell(6, 1))
    case 14 => Some(Cell(6, 2))
    case 15 => Some(Cell(6, 3))
    case 16 => Some(Cell(6, 4))
    case 17 => Some(Cell(6, 5))
    case 18 => Some(Cell(6, 6))
    case 19 => Some(Cell(5, 8))
    case 20 => Some(Cell(4, 8))
    case 21 => Some(Cell(3, 8))
    case 22 => Some(Cell(2, 8))
    case 23 => Some(Cell(1, 8))
    case 24 => Some(Cell(1, 7))
    case 25 => Some(Cell(1, 6))
    case 26 => Some(Cell(2, 6))
    case 27 => Some(Cell(3, 6))
    case 28 => Some(Cell(4, 6))
    case 29 => Some(Cell(5, 6))
    case 30 => Some(Cell(6, 6))
    case 31 => Some(Cell(6, 7))
    case 32 => Some(Cell(6, 8))
    case 33 => Some(Cell(6, 9))
    case 34 => Some(Cell(6, 10))
    case 35 => Some(Cell(6, 11))
    case 36 => Some(Cell(6, 12))
    case 37 => Some(Cell(6, 13))
    case 38 => Some(Cell(6, 14))
    case 39 => Some(Cell(7, 14))
    case 40 => Some(Cell(8, 14))
    case 41 => Some(Cell(8, 13))
    case 42 => Some(Cell(8, 12))
    case 43 => Some(Cell(8, 11))
    case 44 => Some(Cell(8, 10))
    case 45 => Some(Cell(8, 9))
    case 46 => Some(Cell(9, 8))
    case 47 => Some(Cell(10, 8))
    case 48 => Some(Cell(11, 8))
    case 49 => Some(Cell(12, 8))
    case 50 => Some(Cell(13, 8))
    case 51 => Some(Cell(14, 8))
    case 52 => Some(Cell(14, 7))
    case _ => None
  }

  function MapPathToGrid(color: Color, pos: int): (p: GridPoint)
    ensures p.RowCol? <==> 53 <= pos <= TotalPathLength
  {
    if pos == TotalPathLength then RowCol(7, 7)
    else if 53 <= pos <= 57 then
      var homeOffset := pos - MaxMainPath;
      match color
      case Red => RowCol(7, homeOffset)
      case Green => RowCol(homeOffset, 7)
      case Yellow => RowCol(7, 15 - homeOffset)
      case Blue => RowCol(15 - homeOffset, 7)
    else match CorrectPathMap(pos)
      case Some(cell) => RC(cell.r, cell.c)
      case None => RC(0, 0)
  }

  /** The lookup's cases: the centre and the five home cells in `{row, col}`
      form, k = pos - 52 cells along the colour's strip; ring positions in
      `{r, c}` form inside rows and columns 1..14; everything else (0) at
      `{r: 0, c: 0}`. */
  lemma MapPathToGridCases(color: Color, pos: int)
    ensures pos == 58 ==> MapPathToGrid(color, pos) == RowCol(7, 7)
    ensures 53 <= pos <= 57 ==> MapPathToGrid(color, pos) == match color
              case Red => RowCol(7, pos - 52)
              case Green => RowCol(pos - 52, 7)
              case Yellow => RowCol(7, 15 - (pos - 52))
              case Blue => RowCol(15 - (pos - 52), 7)
    ensures 1 <= pos <= 52 ==>
              MapPathToGrid(color, pos).RC? && 1 <= MapPathToGrid(color, pos).r <= 14
              && 1 <= MapPathToGrid(color, pos).c <= 14
    ensures (pos < 1 || pos > 58) ==> MapPathToGrid(color, pos) == RC(0, 0)
  {
  }

  /** The ring table is not injective: positions 18 and 30 share a cell. */
  lemma RingTableCollides()
    ensures MapPathToGrid(Red, 18) == MapPathToGrid(Red, 30) == RC(6, 6)
  {
  }

  /** `canTokenMove`: a yard token needs a six; a token on the track may always
      be tried, the server judges the rest; a finished token never. */
  function CanTokenMove(tokenPos: int, roll: int): (b: bool)
    ensures b <==> (tokenPos == 0 && roll == 6) || (0 < tokenPos < TotalPathLength)
    ensures tokenPos == TotalPathLength ==> !b
  {
    if tokenPos == 0 then roll == 6
    else if tokenPos > 0 && tokenPos < TotalPathLength then true
    else false
  }

  /** The same test as the other variant's panel. */
  lemma CanTokenMoveMatchesPanel(tokenPos: int, roll: int)
    ensures CanTokenMove(tokenPos, roll) == WorkBase.Clickable(tokenPos, roll)
  {
  }

  /* ---------------- Square keys ---------------- */

  /** A `${r}-${c}` key; distinct integer pairs give distinct texts. The text
      "undefined-undefined" arises when the record has no r and c. */
  datatype SquareKey = CellKey(r: int, c: int) | UndefinedKey

  /** `const {r, c} = point; key = `${r}-${c}`` as written. */
  function KeyAsWritten(p: GridPoint): (k: SquareKey)
    ensures k == UndefinedKey <==> p.RowCol?
  {
    match p
    case RC(r, c) => CellKey(r, c)
    case RowCol(_, _) => UndefinedKey
  }

  /** The key the lookup's record names, whichever field names it uses. */
  function KeyOf(p: GridPoint): (k: SquareKey)
    ensures k.CellKey?
    ensures p.RC? ==> k == KeyAsWritten(p)
  {
    match p
    case RC(r, c) => CellKey(r, c)
    case RowCol(row, col) => CellKey(row, col)
  }

  /** The grid pass reads exactly the keys of rows and columns 1..15. */
  predicate Drawn(k: SquareKey) {
    k.CellKey? && 1 <= k.r <= 15 && 1 <= k.c <= 15
  }

  /** As written, home-column and finished tokens are all filed under
      "undefined-undefined", a square the grid never draws. */
  lemma HomeTokensLostAsWritten(color: Color, pos: int)
    requires 53 <= pos <= 58
    ensures KeyAsWritten(MapPathToGrid(color, pos)) == UndefinedKey
    ensures !Drawn(KeyAsWritten(MapPathToGrid(color, pos)))
  {
  }

  /** Reading the record by its own field names, every token past the yard is
      filed under a drawn square, and on the ring nothing changes. */
  lemma PathKeysDrawn(color: Color, pos: int)
    requires 0 < pos <= TotalPathLength
    ensures Drawn(KeyOf(MapPathToGrid(color, pos)))
    ensures pos <= MaxMainPath ==> KeyOf(MapPathToGrid(color, pos)) == KeyAsWritten(MapPathToGrid(color, pos))
  {
    MapPathToGridCases(color, pos);
  }

  /* ---------------- Yard slots ---------------- */

  /** This variant's four yard cells per colour; an index past them falls back
      to the first. */
  function YardArea(color: Color, idx: int): (cell: Cell)
    ensures 3 <= cell.r <= 11 && 3 <= cell.c <= 11
  {
    var slots := match color
      case Red => [Cell(10, 3), Cell(10, 4), Cell(11, 3), Cell(11, 4)]
      case Green => [Cell(3, 10), Cell(3, 11), Cell(4, 10), Cell(4, 11)]
      case Blue => [Cell(3, 3), Cell(3, 4), Cell(4, 3), Cell(4, 4)]
      case Yellow => [Cell(10, 10), Cell(10, 11), Cell(11, 10), Cell(11, 11)];
    if 0 <= idx < 4 then slots[idx] else slots[0]
  }

  /** `player.tokens.indexOf(v)`: the first index holding v, or -1. */
  function IndexOf(tokens: seq<int>, v: int): (i: int)
    ensures -1 <= i < |tokens|
    ensures i >= 0 ==> tokens[i] == v && forall j :: 0 <= j < i ==> tokens[j] != v
    ensures i == -1 ==> forall j :: 0 <= j < |tokens| ==> tokens[j] != v
  {
    if |tokens| == 0 then -1
    else if tokens[0] == v then 0
    else
      var k := IndexOf(tokens[1..], v);
      if k == -1 then -1 else k + 1
  }

  /* ---------------- Highlighting ---------------- */

  /** `myPlayer?.id`. */
  function MyId(gs: GameState, me: PlayerId): Option<PlayerId> {
    match FindPlayer(gs.players, me)
    case None => None
    case Some(k) => Some(gs.players[k].id)
  }

  /** The board pass's flag: the local player's turn, the move phase, and the
      token's owner is the local player; the dice are not consulted. */
  predicate BoardMovable(gs: GameState, me: PlayerId, player: Player) {
    IsCurrentPlayer(gs, me) && gs.status == WaitingForMove && MyId(gs, me) == Some(player.id)
  }

  lemma BoardMovableMeaning(gs: GameState, me: PlayerId, player: Player)
    ensures BoardMovable(gs, me, player) <==>
              IsCurrentPlayer(gs, me) && gs.status == WaitingForMove && player.id == me
  {
    if IsCurrentPlayer(gs, me) {
      CurrentPlayerIsFound(gs, me);
    }
  }

  /** A finished token of the local player is highlighted on their move. */
  lemma FinishedTokenHighlighted(gs: GameState, me: PlayerId, player: Player)
    requires IsCurrentPlayer(gs, me) && gs.status == WaitingForMove && player.id == me
    ensures BoardMovable(gs, me, player) && !CanTokenMove(TotalPathLength, gs.diceValue)
  {
    BoardMovableMeaning(gs, me, player);
  }

  /** The yard pass's flag as written: no check of whose yard it is. */
  predicate YardMovableAsWritten(gs: GameState, me: PlayerId, player: Player) {
    IsCurrentPlayer(gs, me) && gs.status == WaitingForMove && CanTokenMove(0, gs.diceValue)
  }

  /** The yard flag with the board pass's ownership test added. */
  predicate YardMovable(gs: GameState, me: PlayerId, player: Player) {
    BoardMovable(gs, me, player) && CanTokenMove(0, gs.diceValue)
  }

  /** As written, on the local player's six another seat's yard tokens are
      highlighted, and the click handler's guard then holds, so a click on one
      sends its bare index (`WorkBase.WorkBaseClient.HandleTokenClick`), which
      names the local player's token of that index. */
  lemma YardOwnershipAsWritten()
    ensures var gs := GameState([Player("a", Red, [0, 0, 0, 0]), Player("b", Green, [0, 0, 0, 0])],
                                0, 6, WaitingForMove, "");
            YardMovableAsWritten(gs, "a", gs.players[1]) && gs.players[1].id != "a"
            && WorkBase.MayMove(Some(gs), "a")
  {
  }

  /** With the ownership test, only the local player's own yard tokens are
      highlighted, on their move and a six. */
  lemma YardMovableOnlyOwn(gs: GameState, me: PlayerId, player: Player)
    ensures YardMovable(gs, me, player) <==>
              IsCurrentPlayer(gs, me) && gs.status == WaitingForMove && player.id == me && gs.diceValue == 6
  {
    BoardMovableMeaning(gs, me, player);
  }

  /* ---------------- The squares dictionary ---------------- */

  /** Which dictionary: the one the code builds, or the one with the three
      slips (the yard index, the yard ownership test, the home-column key)
      corrected. */
  datatype Reading = AsWritten | Corrected

  type Placement = Entry<SquareKey, BoardState.TokenView>

  function YardCount(gs: GameState, o: nat): nat
    requires o < |gs.players|
  {
    |BoardState.YardIndices(gs.players[o].tokens, |gs.players[o].tokens|)|
  }

  /** The n-th yard push of seat o. As written every yard entry names the
      first yard token and is highlighted on any seat; corrected it names the
      n-th yard token and is highlighted only for its owner. */
  function YardEntry(rd: Reading, gs: GameState, me: PlayerId, o: nat, n: nat): (e: Placement)
    requires o < |gs.players| && n < YardCount(gs, o)
    ensures e.owner == o && e.item.tokenColor == gs.players[o].color && Drawn(e.key)
  {
    var p := gs.players[o];
    var view := match rd
      case AsWritten => BoardState.TokenView(p.color, IndexOf(p.tokens, 0), YardMovableAsWritten(gs, me, p))
      case Corrected =>
        BoardState.TokenView(p.color, BoardState.YardIndices(p.tokens, |p.tokens|)[n], YardMovable(gs, me, p));
    Entry(CellKey(YardArea(p.color, n).r, YardArea(p.color, n).c), view, o)
  }

  /** As written, a seat with two yard tokens shows the first one twice and
      the second one never. */
  lemma YardIndexAsWritten()
    ensures var gs := GameState([Player("a", Red, [0, 7, 0, 9])], 0, 6, WaitingForMove, "");
            YardCount(gs, 0) == 2
            && YardEntry(AsWritten, gs, "a", 0, 0).item.tokenIndex == 0
            && YardEntry(AsWritten, gs, "a", 0, 1).item.tokenIndex == 0
  {
    var gs := GameState([Player("a", Red, [0, 7, 0, 9])], 0, 6, WaitingForMove, "");
    assert BoardState.YardIndices(gs.players[0].tokens, 4) == [0, 2];
  }

  /** Corrected, each yard push names a different yard token of its seat, and
      every yard token is named by one. */
  lemma YardEntriesExact(gs: GameState, me: PlayerId, o: nat)
    requires o < |gs.players|
    ensures forall n :: 0 <= n < YardCount(gs, o) ==>
              0 <= YardEntry(Corrected, gs, me, o, n).item.tokenIndex < |gs.players[o].tokens|
              && gs.players[o].tokens[YardEntry(Corrected, gs, me, o, n).item.tokenIndex] == 0
    ensures forall n, n' :: 0 <= n < n' < YardCount(gs, o) ==>
              YardEntry(Corrected, gs, me, o, n).item.tokenIndex != YardEntry(Corrected, gs, me, o, n').item.tokenIndex
    ensures forall i :: 0 <= i < |gs.players[o].tokens| && gs.players[o].tokens[i] == 0 ==>
              exists n :: 0 <= n < YardCount(gs, o) && YardEntry(Corrected, gs, me, o, n).item.tokenIndex == i
  {
    var tokens := gs.players[o].tokens;
    BoardState.YardIndicesExact(tokens, |tokens|);
    var ys := BoardState.YardIndices(tokens, |tokens|);
    forall i | 0 <= i < |tokens| && tokens[i] == 0
      ensures exists n :: 0 <= n < YardCount(gs, o) && YardEntry(Corrected, gs, me, o, n).item.tokenIndex == i
    {
      var n :| 0 <= n < |ys| && ys[n] == i;
      assert YardEntry(Corrected, gs, me, o, n).item.tokenIndex == i;
    }
  }

  /** The key a board token is filed under: the `{r, c}` destructuring as
      written, or the record's own field names. */
  function PathKey(rd: Reading, p: GridPoint): SquareKey {
    match rd
    case AsWritten => KeyAsWritten(p)
    case Corrected => KeyOf(p)
  }

  /** The board-pass push for token t of seat o: every token past the yard,
      finished ones included, under the key of its cell. */
  function PathEntry(rd: Reading, gs: GameState, me: PlayerId, o: nat, t: nat): (es: seq<Placement>)
    requires o < |gs.players| && t < |gs.players[o].tokens|
    ensures |es| <= 1 && (|es| == 1 <==> 0 < gs.players[o].tokens[t] <= TotalPathLength)
    ensures |es| == 1 ==> es[0].owner == o && es[0].item.tokenIndex == t
  {
    var p := gs.players[o];
    var pos := p.tokens[t];
    if pos > 0 && pos <= TotalPathLength
    then [Entry(PathKey(rd, MapPathToGrid(p.color, pos)), BoardState.TokenView(p.color, t, BoardMovable(gs, me, p)), o)]
    else []
  }

  function YardEntries(rd: Reading, gs: GameState, me: PlayerId, o: nat, n: nat): seq<Placement>
    requires o < |gs.players| && n <= YardCount(gs, o)
  {
    if n == 0 then [] else YardEntries(rd, gs, me, o, n - 1) + [YardEntry(rd, gs, me, o, n - 1)]
  }

  function PathEntries(rd: Reading, gs: GameState, me: PlayerId, o: nat, n: nat): seq<Placement>
    requires o < |gs.players| && n <= |gs.players[o].tokens|
  {
    if n == 0 then [] else PathEntries(rd, gs, me, o, n - 1) + PathEntry(rd, gs, me, o, n - 1)
  }

  function AllYard(rd: Reading, gs: GameState, me: PlayerId, n: nat): seq<Placement>
    requires n <= |gs.players|
  {
    if n == 0 then [] else AllYard(rd, gs, me, n - 1) + YardEntries(rd, gs, me, n - 1, YardCount(gs, n - 1))
  }

  function AllPath(rd: Reading, gs: GameState, me: PlayerId, n: nat): seq<Placement>
    requires n <= |gs.players|
  {
    if n == 0 then [] else AllPath(rd, gs, me, n - 1) + PathEntries(rd, gs, me, n - 1, |gs.players[n - 1].tokens|)
  }

  /** The `boardState` dictionary: all yards, then every seat's board tokens. */
  function Board(rd: Reading, gs: GameState, me: PlayerId): (b: map<SquareKey, seq<BoardState.TokenView>>)
    ensures forall k :: k in b ==> |b[k]| > 0
  {
    GroupNonEmpty(AllYard(rd, gs, me, |gs.players|) + AllPath(rd, gs, me, |gs.players|));
    Group(AllYard(rd, gs, me, |gs.players|) + AllPath(rd, gs, me, |gs.players|))
  }

  /* ---------------- What the board lists ---------------- */

  lemma {:induction false} PathEntriesHold(rd: Reading, gs: GameState, me: PlayerId, o: nat, n: nat, t: nat)
    requires o < |gs.players| && t < n <= |gs.players[o].tokens|
    requires 0 < gs.players[o].tokens[t] <= TotalPathLength
    ensures PathEntry(rd, gs, me, o, t)[0] in PathEntries(rd, gs, me, o, n)
  {
    var m := n - 1;
    assert m + 1 == n;
    assert PathEntries(rd, gs, me, o, m + 1) == PathEntries(rd, gs, me, o, m) + PathEntry(rd, gs, me, o, m);
    if t < m {
      PathEntriesHold(rd, gs, me, o, m, t);
    }
  }

  lemma AllPathStep(rd: Reading, gs: GameState, me: PlayerId, n: nat)
    requires n < |gs.players|
    ensures AllPath(rd, gs, me, n + 1) == AllPath(rd, gs, me, n) + PathEntries(rd, gs, me, n, |gs.players[n].tokens|)
  {
  }

  lemma {:induction false} AllPathHolds(rd: Reading, gs: GameState, me: PlayerId, n: nat, o: nat, t: nat)
    requires o < n <= |gs.players| && t < |gs.players[o].tokens|
    requires 0 < gs.players[o].tokens[t] <= TotalPathLength
    ensures PathEntry(rd, gs, me, o, t)[0] in AllPath(rd, gs, me, n)
  {
    var m := n - 1;
    assert m + 1 == n;
    AllPathStep(rd, gs, me, m);
    if o < m {
      AllPathHolds(rd, gs, me, m, o, t);
    } else {
      assert o == m;
      PathEntriesHold(rd, gs, me, m, |gs.players[m].tokens|, t);
    }
  }

  /** Every token past the yard is listed, with its own colour, index and
      highlight, under the key of its cell. That square is one the grid draws
      exactly when the dictionary is the corrected one or the token is on the
      ring: as written, a token at 53..58 is listed only under
      "undefined-undefined". */
  lemma BoardListsPathToken(rd: Reading, gs: GameState, me: PlayerId, o: nat, t: nat)
    requires o < |gs.players| && t < |gs.players[o].tokens|
    requires 0 < gs.players[o].tokens[t] <= TotalPathLength
    ensures var p := gs.players[o];
            var key := PathKey(rd, MapPathToGrid(p.color, p.tokens[t]));
            key in Board(rd, gs, me)
            && BoardState.TokenView(p.color, t, BoardMovable(gs, me, p)) in Board(rd, gs, me)[key]
            && (Drawn(key) <==> rd == Corrected || p.tokens[t] <= MaxMainPath)
            && (rd == AsWritten && p.tokens[t] > MaxMainPath ==> key == UndefinedKey)
  {
    var p := gs.players[o];
    PathKeysDrawn(p.color, p.tokens[t]);
    if p.tokens[t] > MaxMainPath {
      HomeTokensLostAsWritten(p.color, p.tokens[t]);
    }
    var e := PathEntry(rd, gs, me, o, t)[0];
    AllPathHolds(rd, gs, me, |gs.players|, o, t);
    var es := AllYard(rd, gs, me, |gs.players|) + AllPath(rd, gs, me, |gs.players|);
    assert e in es;
    GroupMembers(es, e.key, e.item);
  }

  /** The server deals each seat its own colour. */
  predicate DistinctColors(gs: GameState) {
    forall a, b :: 0 <= a < b < |gs.players| ==> gs.players[a].color != gs.players[b].color
  }

  /** An as-written yard push: its seat's colour and the first yard index. */
  predicate YardShaped(gs: GameState, e: Placement) {
    e.owner < |gs.players| && e.item.tokenColor == gs.players[e.owner].color
    && e.item.tokenIndex == IndexOf(gs.players[e.owner].tokens, 0)
  }

  /** An as-written board push: a token of its seat past the yard, under the
      key the `{r, c}` destructuring gives. */
  predicate PathShaped(gs: GameState, e: Placement) {
    e.owner < |gs.players| && e.item.tokenColor == gs.players[e.owner].color
    && 0 <= e.item.tokenIndex < |gs.players[e.owner].tokens|
    && 0 < gs.players[e.owner].tokens[e.item.tokenIndex] <= TotalPathLength
    && e.key == KeyAsWritten(MapPathToGrid(gs.players[e.owner].color, gs.players[e.owner].tokens[e.item.tokenIndex]))
  }

  lemma {:induction false} YardEntriesShaped(gs: GameState, me: PlayerId, o: nat, n: nat, e: Placement)
    requires o < |gs.players| && n <= YardCount(gs, o) && e in YardEntries(AsWritten, gs, me, o, n)
    ensures YardShaped(gs, e)
  {
    var m := n - 1;
    assert m + 1 == n;
    if e in YardEntries(AsWritten, gs, me, o, m) {
      YardEntriesShaped(gs, me, o, m, e);
    }
  }

  lemma {:induction false} AllYardShaped(gs: GameState, me: PlayerId, n: nat, e: Placement)
    requires n <= |gs.players| && e in AllYard(AsWritten, gs, me, n)
    ensures YardShaped(gs, e)
  {
    var m := n - 1;
    assert m + 1 == n;
    if e in AllYard(AsWritten, gs, me, m) {
      AllYardShaped(gs, me, m, e);
    } else {
      YardEntriesShaped(gs, me, m, YardCount(gs, m), e);
    }
  }

  lemma {:induction false} PathEntriesShaped(gs: GameState, me: PlayerId, o: nat, n: nat, e: Placement)
    requires o < |gs.players| && n <= |gs.players[o].tokens| && e in PathEntries(AsWritten, gs, me, o, n)
    ensures PathShaped(gs, e)
  {
    var m := n - 1;
    assert m + 1 == n;
    if e in PathEntries(AsWritten, gs, me, o, m) {
      PathEntriesShaped(gs, me, o, m, e);
    }
  }

  lemma {:induction false} AllPathShaped(gs: GameState, me: PlayerId, n: nat, e: Placement)
    requires n <= |gs.players| && e in AllPath(AsWritten, gs, me, n)
    ensures PathShaped(gs, e)
  {
    var m := n - 1;
    assert m + 1 == n;
    AllPathStep(AsWritten, gs, me, m);
    if e in AllPath(AsWritten, gs, me, m) {
      AllPathShaped(gs, me, m, e);
    } else {
      PathEntriesShaped(gs, me, m, |gs.players[m].tokens|, e);
    }
  }

  /** As written, the only push carrying a given home-column token is its
      board push, under "undefined-undefined": a yard push names a yard token
      or another colour, and a board push of another seat another colour. */
  lemma HomeTokenPushes(gs: GameState, me: PlayerId, o: nat, t: nat, e: Placement)
    requires DistinctColors(gs)
    requires o < |gs.players| && t < |gs.players[o].tokens|
    requires MaxMainPath < gs.players[o].tokens[t] <= TotalPathLength
    requires e in AllYard(AsWritten, gs, me, |gs.players|) + AllPath(AsWritten, gs, me, |gs.players|)
    ensures var p := gs.players[o];
            e.item == BoardState.TokenView(p.color, t, BoardMovable(gs, me, p)) ==> e.key == UndefinedKey
  {
    var p := gs.players[o];
    if e in AllYard(AsWritten, gs, me, |gs.players|) {
      AllYardShaped(gs, me, |gs.players|, e);
      if e.owner == o {
        assert e.item.tokenIndex != t;
      } else {
        assert e.item.tokenColor != p.color by {
          if e.owner < o {
            assert gs.players[e.owner].color != gs.players[o].color;
          } else {
            assert gs.players[o].color != gs.players[e.owner].color;
          }
        }
      }
    } else {
      AllPathShaped(gs, me, |gs.players|, e);
      if e.owner == o {
        HomeTokensLostAsWritten(p.color, p.tokens[t]);
      } else {
        assert e.item.tokenColor != p.color by {
          if e.owner < o {
            assert gs.players[e.owner].color != gs.players[o].color;
          } else {
            assert gs.players[o].color != gs.players[e.owner].color;
          }
        }
      }
    }
  }

  /** As written, a token in its home column or at the centre is listed
      under "undefined-undefined" and on no square the grid draws, so the
      board does not show it at all. */
  lemma HomeTokenNotDrawn(gs: GameState, me: PlayerId, o: nat, t: nat)
    requires DistinctColors(gs)
    requires o < |gs.players| && t < |gs.players[o].tokens|
    requires MaxMainPath < gs.players[o].tokens[t] <= TotalPathLength
    ensures var p := gs.players[o];
            var view := BoardState.TokenView(p.color, t, BoardMovable(gs, me, p));
            UndefinedKey in Board(AsWritten, gs, me) && view in Board(AsWritten, gs, me)[UndefinedKey]
            && forall k :: k in Board(AsWritten, gs, me) && Drawn(k) ==> view !in Board(AsWritten, gs, me)[k]
  {
    var p := gs.players[o];
    var view := BoardState.TokenView(p.color, t, BoardMovable(gs, me, p));
    BoardListsPathToken(AsWritten, gs, me, o, t);
    var es := AllYard(AsWritten, gs, me, |gs.players|) + AllPath(AsWritten, gs, me, |gs.players|);
    assert Board(AsWritten, gs, me) == Group(es);
    forall k | k in Group(es) && Drawn(k)
      ensures view !in Group(es)[k]
    {
      GroupMembers(es, k, view);
      forall j | 0 <= j < |es|
        ensures !(es[j].key == k && es[j].item == view)
      {
        HomeTokenPushes(gs, me, o, t, es[j]);
      }
    }
  }

  /* ---------------- The builder ---------------- */

  /** `player.tokens.filter(pos => pos === 0)`: the yard positions, one zero
      per yard token. */
  method CollectYard(tokens: seq<int>) returns (yardTokens: seq<int>)
    ensures |yardTokens| == |BoardState.YardIndices(tokens, |tokens|)|
    ensures forall k :: 0 <= k < |yardTokens| ==> yardTokens[k] == 0
  {
    yardTokens := [];
    var i := 0;
    while i < |tokens|
      invariant 0 <= i <= |tokens|
      invariant |yardTokens| == |BoardState.YardIndices(tokens, i)|
      invariant forall k :: 0 <= k < |yardTokens| ==> yardTokens[k] == 0
    {
      if tokens[i] == 0 {
        yardTokens := yardTokens + [tokens[i]];
      }
      i := i + 1;
    }
  }

  lemma AllYardStep(gs: GameState, me: PlayerId, n: nat)
    requires n < |gs.players|
    ensures AllYard(AsWritten, gs, me, n + 1) ==
              AllYard(AsWritten, gs, me, n) + YardEntries(AsWritten, gs, me, n, YardCount(gs, n))
  {
  }

  /** What the yard pass has pushed once it has done the seats below o and
      the first idx yard tokens of seat o. */
  ghost function YardPushed(gs: GameState, me: PlayerId, o: nat, idx: nat): seq<Placement>
    requires o < |gs.players| && idx <= YardCount(gs, o)
  {
    if idx == 0 then AllYard(AsWritten, gs, me, o)
    else YardPushed(gs, me, o, idx - 1) + [YardEntry(AsWritten, gs, me, o, idx - 1)]
  }

  lemma {:induction false} YardPushedIsPrefix(gs: GameState, me: PlayerId, o: nat, idx: nat)
    requires o < |gs.players| && idx <= YardCount(gs, o)
    ensures YardPushed(gs, me, o, idx) == AllYard(AsWritten, gs, me, o) + YardEntries(AsWritten, gs, me, o, idx)
  {
    if idx > 0 {
      var m := idx - 1;
      YardPushedIsPrefix(gs, me, o, m);
      assert m + 1 == idx;
      assert YardPushed(gs, me, o, m + 1) == YardPushed(gs, me, o, m) + [YardEntry(AsWritten, gs, me, o, m)];
      assert YardEntries(AsWritten, gs, me, o, m + 1) ==
               YardEntries(AsWritten, gs, me, o, m) + [YardEntry(AsWritten, gs, me, o, m)];
    }
  }

  /** The yard pass's push for the idx-th filtered position, as the loop
      body computes it. */
  function YardPush(gs: GameState, me: PlayerId, o: nat, idx: nat, pos: int): Placement
    requires o < |gs.players|
  {
    var player := gs.players[o];
    var slot := YardArea(player.color, idx);
    Entry(CellKey(slot.r, slot.c),
          BoardState.TokenView(player.color, IndexOf(player.tokens, pos),
                               IsCurrentPlayer(gs, me) && gs.status == WaitingForMove && CanTokenMove(pos, gs.diceValue)),
          o)
  }

  /** One turn of the yard pass's inner loop, on the grouped dictionary: the
      filtered position is a zero, so the loop body pushes the n-th yard
      entry. */
  lemma YardPushStep(gs: GameState, me: PlayerId, o: nat, n: nat, pos: int)
    requires o < |gs.players| && n < YardCount(gs, o) && pos == 0
    ensures Group(YardPushed(gs, me, o, n + 1)) == Push(Group(YardPushed(gs, me, o, n)), YardPush(gs, me, o, n, pos))
  {
    assert YardPush(gs, me, o, n, pos) == YardEntry(AsWritten, gs, me, o, n);
    GroupSnoc(YardPushed(gs, me, o, n), YardEntry(AsWritten, gs, me, o, n));
  }

  method PushYard(gs: GameState, me: PlayerId, o: nat, squares: map<SquareKey, seq<BoardState.TokenView>>)
    returns (squares': map<SquareKey, seq<BoardState.TokenView>>)
    requires o < |gs.players| && squares == Group(AllYard(AsWritten, gs, me, o))
    ensures squares' == Group(AllYard(AsWritten, gs, me, o + 1))
  {
    var player := gs.players[o];
    var yardTokens := CollectYard(player.tokens);
    var isCurrentPlayer := IsCurrentPlayer(gs, me);
    var isWaitingForMove := gs.status == WaitingForMove;
    squares' := squares;
    var idx := 0;
    while idx < |yardTokens|
      invariant 0 <= idx <= |yardTokens|
      invariant squares' == Group(YardPushed(gs, me, o, idx))
    {
      var pos := yardTokens[idx];
      var token := BoardState.TokenView(player.color, IndexOf(player.tokens, pos),
                                        isCurrentPlayer && isWaitingForMove && CanTokenMove(pos, gs.diceValue));
      var slot := YardArea(player.color, idx);
      assert Entry(CellKey(slot.r, slot.c), token, o) == YardPush(gs, me, o, idx, pos);
      YardPushStep(gs, me, o, idx, pos);
      squares' := Push(squares', Entry(CellKey(slot.r, slot.c), token, o));
      idx := idx + 1;
    }
    YardPushedIsPrefix(gs, me, o, idx);
    AllYardStep(gs, me, o);
  }

  /** What has been pushed once the yard pass and the board pass's first o
      seats have run. */
  ghost function Pushed(gs: GameState, me: PlayerId, o: nat): seq<Placement>
    requires o <= |gs.players|
  {
    if o == 0 then AllYard(AsWritten, gs, me, |gs.players|)
    else Pushed(gs, me, o - 1) + PathEntries(AsWritten, gs, me, o - 1, |gs.players[o - 1].tokens|)
  }

  lemma {:induction false} PushedIsPrefix(gs: GameState, me: PlayerId, o: nat)
    requires o <= |gs.players|
    ensures Pushed(gs, me, o) == AllYard(AsWritten, gs, me, |gs.players|) + AllPath(AsWritten, gs, me, o)
  {
    if o > 0 {
      var m := o - 1;
      PushedIsPrefix(gs, me, m);
      assert m + 1 == o;
      assert Pushed(gs, me, m + 1) == Pushed(gs, me, m) + PathEntries(AsWritten, gs, me, m, |gs.players[m].tokens|);
      AllPathStep(AsWritten, gs, me, m);
    }
  }

  /** What the board pass has pushed once it has done the seats below o and
      the tokens of seat o below idx. */
  ghost function PathPushed(gs: GameState, me: PlayerId, o: nat, idx: nat): seq<Placement>
    requires o < |gs.players| && idx <= |gs.players[o].tokens|
  {
    if idx == 0 then Pushed(gs, me, o) else PathPushed(gs, me, o, idx - 1) + PathEntry(AsWritten, gs, me, o, idx - 1)
  }

  lemma {:induction false} PathPushedIsPrefix(gs: GameState, me: PlayerId, o: nat, idx: nat)
    requires o < |gs.players| && idx <= |gs.players[o].tokens|
    ensures PathPushed(gs, me, o, idx) == Pushed(gs, me, o) + PathEntries(AsWritten, gs, me, o, idx)
  {
    if idx > 0 {
      var m := idx - 1;
      PathPushedIsPrefix(gs, me, o, m);
      assert m + 1 == idx;
      assert PathPushed(gs, me, o, m + 1) == PathPushed(gs, me, o, m) + PathEntry(AsWritten, gs, me, o, m);
      assert PathEntries(AsWritten, gs, me, o, m + 1) ==
               PathEntries(AsWritten, gs, me, o, m) + PathEntry(AsWritten, gs, me, o, m);
    }
  }

  /** One turn of the board pass's inner loop, on the grouped dictionary. */
  lemma PushPathStep(gs: GameState, me: PlayerId, o: nat, t: nat)
    requires o < |gs.players| && t < |gs.players[o].tokens|
    ensures var p := gs.players[o];
            var pos := p.tokens[t];
            var done := PathPushed(gs, me, o, t);
            var next := PathPushed(gs, me, o, t + 1);
            var e := Entry(KeyAsWritten(MapPathToGrid(p.color, pos)),
                           BoardState.TokenView(p.color, t, BoardMovable(gs, me, p)), o);
            (0 < pos <= TotalPathLength ==> Group(next) == Push(Group(done), e))
            && (!(0 < pos <= TotalPathLength) ==> next == done)
  {
    var p := gs.players[o];
    var pos := p.tokens[t];
    var done := PathPushed(gs, me, o, t);
    assert PathPushed(gs, me, o, t + 1) == done + PathEntry(AsWritten, gs, me, o, t);
    if 0 < pos <= TotalPathLength {
      GroupSnoc(done, Entry(KeyAsWritten(MapPathToGrid(p.color, pos)),
                            BoardState.TokenView(p.color, t, BoardMovable(gs, me, p)), o));
    }
  }

  method PushPath(gs: GameState, me: PlayerId, o: nat, squares: map<SquareKey, seq<BoardState.TokenView>>)
    returns (squares': map<SquareKey, seq<BoardState.TokenView>>)
    requires o < |gs.players| && squares == Group(Pushed(gs, me, o))
    ensures squares' == Group(Pushed(gs, me, o + 1))
  {
    var player := gs.players[o];
    var movable := BoardMovable(gs, me, player);
    squares' := squares;
    var tokenIndex := 0;
    while tokenIndex < |player.tokens|
      invariant 0 <= tokenIndex <= |player.tokens|
      invariant squares' == Group(PathPushed(gs, me, o, tokenIndex))
    {
      var pos := player.tokens[tokenIndex];
      PushPathStep(gs, me, o, tokenIndex);
      if pos > 0 && pos <= TotalPathLength {
        var key := KeyAsWritten(MapPathToGrid(player.color, pos));
        squares' := Push(squares', Entry(key, BoardState.TokenView(player.color, tokenIndex, movable), o));
      }
      tokenIndex := tokenIndex + 1;
    }
    PathPushedIsPrefix(gs, me, o, tokenIndex);
  }

  /** The memoised builder: a yard pass then a board pass over every seat,
      building the dictionary as written. */
  method BuildBoardState(gs: GameState, me: PlayerId) returns (squares: map<SquareKey, seq<BoardState.TokenView>>)
    ensures squares == Board(AsWritten, gs, me)
  {
    squares := map[];
    var o := 0;
    while o < |gs.players|
      invariant 0 <= o <= |gs.players|
      invariant squares == Group(AllYard(AsWritten, gs, me, o))
    {
      squares := PushYard(gs, me, o, squares);
      o := o + 1;
    }
    o := 0;
    while o < |gs.players|
      invariant 0 <= o <= |gs.players|
      invariant squares == Group(Pushed(gs, me, o))
    {
      squares := PushPath(gs, me, o, squares);
      o := o + 1;
    }
    PushedIsPrefix(gs, me, |gs.players|);
  }
}
