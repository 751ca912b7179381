/** Shared vocabulary of the Ludo client: seat colours, board cells, the
    server-authoritative game state and the lookups the client makes on it. */
module LudoTypes {

  datatype Option<T> = None | Some(value: T)

  /** The four seat colours the server assigns. */
  datatype Color = Red | Green | Yellow | Blue

  /** A cell of the 15x15 board, 1-indexed; (0,0) is the "no cell" fallback. */
  datatype Cell = Cell(r: int, c: int)

  const NoCell := Cell(0, 0)
  /** The centre finish cell. */
  const Centre := Cell(8, 8)

  /** Position 58 is the centre finish (TOTAL_PATH_LENGTH). */
  const TotalPathLength := 58
  /** Positions 1..52 are the shared ring (MAX_MAIN_PATH). */
  const MaxMainPath := 52

  predicate OnBoard(cell: Cell) {
    1 <= cell.r <= 15 && 1 <= cell.c <= 15
  }

  /** Manhattan distance between two cells. */
  function Distance(a: Cell, b: Cell): nat {
    (if a.r < b.r then b.r - a.r else a.r - b.r) + (if a.c < b.c then b.c - a.c else a.c - b.c)
  }

  /** The phase tag of a game state; any other tag the server sends is kept as text. */
  datatype Status = WaitingForRoll | WaitingForMove | GameOver | OtherStatus(tag: string)

  type PlayerId = string

  /** A seat: its session id, colour and the positions of its tokens. */
  datatype Player = Player(id: PlayerId, color: Color, tokens: seq<int>)

  /** A server snapshot. A null dice value is represented by 0: the client only
      compares it with 6 and adds it to positions, where null and 0 behave alike. */
  datatype GameState = GameState(players: seq<Player>, currentPlayerIndex: int, diceValue: int,
                                 status: Status, message: string)

  /** `gameState.players[gameState.currentPlayerIndex]?.id === socket.id` */
  predicate IsCurrentPlayer(gs: GameState, me: PlayerId) {
    0 <= gs.currentPlayerIndex < |gs.players| && gs.players[gs.currentPlayerIndex].id == me
  }

  /** `players.find(p => p.id === me)`, as the index of the first match. */
  function FindPlayer(players: seq<Player>, me: PlayerId): (r: Option<nat>)
    ensures r.Some? ==> r.value < |players| && players[r.value].id == me
    ensures r.Some? ==> forall j :: 0 <= j < r.value ==> players[j].id != me
    ensures r.None? ==> forall j :: 0 <= j < |players| ==> players[j].id != me
  {
    if |players| == 0 then None
    else if players[0].id == me then Some(0)
    else match FindPlayer(players[1..], me)
      case None => None
      case Some(k) => Some(k + 1)
  }

  /** The current player is always found by id. */
  lemma CurrentPlayerIsFound(gs: GameState, me: PlayerId)
    requires IsCurrentPlayer(gs, me)
    ensures FindPlayer(gs.players, me).Some?
  {
    var k := gs.currentPlayerIndex;
    assert gs.players[k].id == me;
  }
}
