/** The board-less client variant: each player's yard panel with its three
    buckets (yard, on board, finished) and the click highlighting, and a client
    whose handlers update the game state, dice display and error in place. */
module WorkBase {
  import opened LudoTypes
  import Moves
  import Engine

  /* ---------------- Highlighting ---------------- */

  /** A token the panel lets the player click: a yard token on a six, or any
      token strictly between the yard and the finish. */
  predicate Clickable(pos: int, dice: int) {
    (pos == 0 && dice == 6) || (0 < pos < TotalPathLength)
  }

  /** The indices the panel highlights, as a set comprehension. */
  function HighlightSet(tokens: seq<int>, isCurrentPlayer: bool, isWaitingForMove: bool, dice: int): set<nat> {
    if !isCurrentPlayer || !isWaitingForMove then {}
    else set i: nat | i < |tokens| && Clickable(tokens[i], dice)
  }

  /** `movableTokens`: the set filled by a pass over the tokens. */
  method MovableTokens(tokens: seq<int>, isCurrentPlayer: bool, isWaitingForMove: bool, dice: int)
    returns (movable: set<nat>)
    ensures movable == HighlightSet(tokens, isCurrentPlayer, isWaitingForMove, dice)
    ensures forall i: nat :: i in movable <==>
              isCurrentPlayer && isWaitingForMove && i < |tokens| && Clickable(tokens[i], dice)
  {
    if !isCurrentPlayer || !isWaitingForMove {
      return {};
    }
    movable := {};
    var index := 0;
    while index < |tokens|
      invariant 0 <= index <= |tokens|
      invariant forall i: nat :: i in movable <==> i < index && Clickable(tokens[i], dice)
    {
      var pos := tokens[index];
      if pos == 0 && dice == 6 {
        movable := movable + {index};
      } else if pos > 0 && pos < TotalPathLength {
        movable := movable + {index};
      }
      index := index + 1;
    }
  }

  /** A finished token, and any position outside 0..57, is never highlighted;
      a yard token only on a six. */
  lemma HighlightBounds(tokens: seq<int>, isCurrentPlayer: bool, isWaitingForMove: bool, dice: int, i: nat)
    requires i in HighlightSet(tokens, isCurrentPlayer, isWaitingForMove, dice)
    ensures isCurrentPlayer && isWaitingForMove && i < |tokens|
    ensures 0 <= tokens[i] < TotalPathLength
    ensures tokens[i] == 0 ==> dice == 6
  {
  }

  /** There is no overshoot check: a token one short of the finish is highlighted
      on any roll, even where the canonical client's predictor calls the move
      illegal. */
  lemma HighlightIgnoresOvershoot(dice: int)
    requires dice > 1
    ensures 0 in HighlightSet([57, 0, 0, 0], true, true, dice)
    ensures !Moves.IsMoveLegal(57, dice)
  {
  }

  /* ---------------- Buckets ---------------- */

  /** `tokens.filter(pos => pos === v).length` over the first n tokens. */
  function CountOf(tokens: seq<int>, v: int, n: nat): (c: nat)
    requires n <= |tokens|
    ensures c <= n
  {
    if n == 0 then 0 else CountOf(tokens, v, n - 1) + (if tokens[n - 1] == v then 1 else 0)
  }

  /** The count is the number of occurrences of v among the first n tokens. */
  lemma {:induction false} CountOfIsMultiplicity(tokens: seq<int>, v: int, n: nat)
    requires n <= |tokens|
    ensures CountOf(tokens, v, n) == multiset(tokens[..n])[v]
  {
    if n > 0 {
      var m := n - 1;
      assert m + 1 == n;
      CountOfIsMultiplicity(tokens, v, m);
      assert tokens[..n] == tokens[..m] + [tokens[m]];
    }
  }

  function TokensInYard(tokens: seq<int>): nat {
    CountOf(tokens, 0, |tokens|)
  }

  function TokensAtHome(tokens: seq<int>): nat {
    CountOf(tokens, TotalPathLength, |tokens|)
  }

  /** One entry of `pathTokens`. */
  datatype PathToken = PathToken(pos: int, index: nat)

  /** `tokens.map((pos, index) => ({pos, index})).filter(t => 0 < t.pos < 58)`
      over the first n tokens. */
  function PathTokensUpTo(tokens: seq<int>, n: nat): seq<PathToken>
    requires n <= |tokens|
  {
    if n == 0 then []
    else PathTokensUpTo(tokens, n - 1)
         + (if 0 < tokens[n - 1] < TotalPathLength then [PathToken(tokens[n - 1], n - 1)] else [])
  }

  function PathTokens(tokens: seq<int>): seq<PathToken> {
    PathTokensUpTo(tokens, |tokens|)
  }

  /** Every entry carries its token's own position, strictly inside the track;
      every such token has an entry; and the entries are in index order. */
  lemma {:induction false} PathTokensExact(tokens: seq<int>, n: nat)
    requires n <= |tokens|
    ensures forall k :: 0 <= k < |PathTokensUpTo(tokens, n)| ==>
              PathTokensUpTo(tokens, n)[k].index < n
              && PathTokensUpTo(tokens, n)[k].pos == tokens[PathTokensUpTo(tokens, n)[k].index]
              && 0 < PathTokensUpTo(tokens, n)[k].pos < TotalPathLength
    ensures forall i :: 0 <= i < n && 0 < tokens[i] < TotalPathLength ==>
              PathToken(tokens[i], i) in PathTokensUpTo(tokens, n)
    ensures forall k, k' :: 0 <= k < k' < |PathTokensUpTo(tokens, n)| ==>
              PathTokensUpTo(tokens, n)[k].index < PathTokensUpTo(tokens, n)[k'].index
  {
    if n > 0 {
      PathTokensExact(tokens, n - 1);
    }
  }

  /** For positions within 0..58 the three panel counts account for every
      token exactly once. */
  lemma {:induction false} BucketsPartition(tokens: seq<int>, n: nat)
    requires n <= |tokens|
    requires forall i :: 0 <= i < |tokens| ==> 0 <= tokens[i] <= TotalPathLength
    ensures CountOf(tokens, 0, n) + |PathTokensUpTo(tokens, n)| + CountOf(tokens, TotalPathLength, n) == n
  {
    if n > 0 {
      BucketsPartition(tokens, n - 1);
    }
  }

  /** The whole-panel form of BucketsPartition. */
  lemma BucketCounts(tokens: seq<int>)
    requires forall i :: 0 <= i < |tokens| ==> 0 <= tokens[i] <= TotalPathLength
    ensures TokensInYard(tokens) + |PathTokens(tokens)| + TokensAtHome(tokens) == |tokens|
  {
    BucketsPartition(tokens, |tokens|);
  }

  /* ---------------- The panel ---------------- */

  /** One rendered token: its index and whether it may be clicked. */
  datatype Chip = Chip(tokenIndex: nat, isMovable: bool)

  /** The chips of the tokens at position v among the first n, in index order;
      finished chips are never clickable, the others are when highlighted. */
  function ChipsAt(tokens: seq<int>, v: int, movable: set<nat>, n: nat): seq<Chip>
    requires n <= |tokens|
  {
    if n == 0 then []
    else ChipsAt(tokens, v, movable, n - 1)
         + (if tokens[n - 1] == v
            then [Chip(n - 1, if v == TotalPathLength then false else n - 1 in movable)]
            else [])
  }

  /** The three rows of a panel, with the counts it prints. */
  datatype PanelView = PanelView(yard: seq<Chip>, yardCount: nat, board: seq<Chip>,
                                 finished: seq<Chip>, finishedCount: nat)

  function Panel(tokens: seq<int>, movable: set<nat>): PanelView {
    var pt := PathTokens(tokens);
    PanelView(ChipsAt(tokens, 0, movable, |tokens|), TokensInYard(tokens),
              seq(|pt|, k requires 0 <= k < |pt| => Chip(pt[k].index, pt[k].index in movable)),
              ChipsAt(tokens, TotalPathLength, movable, |tokens|), TokensAtHome(tokens))
  }

  /** Each row has as many chips as the count beside it, and every chip is one
      of the tokens at that position. */
  lemma {:induction false} ChipsCounted(tokens: seq<int>, v: int, movable: set<nat>, n: nat)
    requires n <= |tokens|
    ensures |ChipsAt(tokens, v, movable, n)| == CountOf(tokens, v, n)
    ensures forall k :: 0 <= k < |ChipsAt(tokens, v, movable, n)| ==>
              ChipsAt(tokens, v, movable, n)[k].tokenIndex < n
              && tokens[ChipsAt(tokens, v, movable, n)[k].tokenIndex] == v
  {
    if n > 0 {
      ChipsCounted(tokens, v, movable, n - 1);
    }
  }

  /** Every token at position v among the first n has its chip in the row. */
  lemma {:induction false} ChipsComplete(tokens: seq<int>, v: int, movable: set<nat>, n: nat, i: nat)
    requires i < n <= |tokens| && tokens[i] == v
    ensures exists k :: 0 <= k < |ChipsAt(tokens, v, movable, n)| && ChipsAt(tokens, v, movable, n)[k].tokenIndex == i
  {
    var prev := ChipsAt(tokens, v, movable, n - 1);
    var chips := ChipsAt(tokens, v, movable, n);
    if i == n - 1 {
      assert chips[|prev|].tokenIndex == i;
    } else {
      ChipsComplete(tokens, v, movable, n - 1, i);
      var k :| 0 <= k < |prev| && prev[k].tokenIndex == i;
      assert chips[k] == prev[k];
    }
  }

  /** A chip in any row is clickable exactly when its token is highlighted:
      for the finished row because a finished token is never highlighted. */
  lemma {:induction false} ChipsAgreeWithHighlight(tokens: seq<int>, v: int, cur: bool, waiting: bool, dice: int,
                                                   n: nat, k: nat)
    requires n <= |tokens| && k < |ChipsAt(tokens, v, HighlightSet(tokens, cur, waiting, dice), n)|
    ensures ChipsAt(tokens, v, HighlightSet(tokens, cur, waiting, dice), n)[k].isMovable <==>
              ChipsAt(tokens, v, HighlightSet(tokens, cur, waiting, dice), n)[k].tokenIndex
                in HighlightSet(tokens, cur, waiting, dice)
  {
    var movable := HighlightSet(tokens, cur, waiting, dice);
    var prev := ChipsAt(tokens, v, movable, n - 1);
    if k < |prev| {
      assert ChipsAt(tokens, v, movable, n)[k] == prev[k];
      ChipsAgreeWithHighlight(tokens, v, cur, waiting, dice, n - 1, k);
    } else {
      assert ChipsAt(tokens, v, movable, n)[k].tokenIndex == n - 1;
      if v == TotalPathLength {
        assert n - 1 !in movable;
      }
    }
  }

  /** The printed counts match the chips drawn, and nothing in the finished
      row can be clicked. */
  lemma PanelShape(tokens: seq<int>, cur: bool, waiting: bool, dice: int)
    ensures |Panel(tokens, HighlightSet(tokens, cur, waiting, dice)).yard|
              == Panel(tokens, HighlightSet(tokens, cur, waiting, dice)).yardCount
    ensures |Panel(tokens, HighlightSet(tokens, cur, waiting, dice)).finished|
              == Panel(tokens, HighlightSet(tokens, cur, waiting, dice)).finishedCount
    ensures |Panel(tokens, HighlightSet(tokens, cur, waiting, dice)).board| == |PathTokens(tokens)|
    ensures forall k :: 0 <= k < |Panel(tokens, HighlightSet(tokens, cur, waiting, dice)).finished| ==>
              !Panel(tokens, HighlightSet(tokens, cur, waiting, dice)).finished[k].isMovable
  {
    var movable := HighlightSet(tokens, cur, waiting, dice);
    ChipsCounted(tokens, 0, movable, |tokens|);
    ChipsCounted(tokens, TotalPathLength, movable, |tokens|);
    var fin := ChipsAt(tokens, TotalPathLength, movable, |tokens|);
    forall k | 0 <= k < |fin|
      ensures !fin[k].isMovable
    {
      ChipsAgreeWithHighlight(tokens, TotalPathLength, cur, waiting, dice, |tokens|, k);
    }
  }

  /* ---------------- The turn prop ---------------- */

  /** The panel's `isCurrentPlayer` prop as the parent passes it: whether the
      panel belongs to the local session, whoever's turn it is. */
  predicate PanelPropAsWritten(player: Player, me: PlayerId) {
    player.id == me
  }

  /** The prop the panel's name and its "[YOUR TURN]" label call for: the
      panel is the local player's and it is that player's turn. */
  predicate PanelProp(gs: GameState, me: PlayerId, player: Player) {
    player.id == me && IsCurrentPlayer(gs, me)
  }

  function HighlightsAsWritten(gs: GameState, me: PlayerId, player: Player): set<nat> {
    HighlightSet(player.tokens, PanelPropAsWritten(player, me), gs.status == WaitingForMove, gs.diceValue)
  }

  function Highlights(gs: GameState, me: PlayerId, player: Player): set<nat> {
    HighlightSet(player.tokens, PanelProp(gs, me, player), gs.status == WaitingForMove, gs.diceValue)
  }

  /** As written, a token is highlighted exactly when the panel is the local
      player's own, the state waits for a move and the token is clickable; the
      turn holder plays no part. */
  lemma HighlightedAsWritten(gs: GameState, me: PlayerId, player: Player, i: nat)
    ensures i in HighlightsAsWritten(gs, me, player) <==>
              player.id == me && gs.status == WaitingForMove && i < |player.tokens|
              && Clickable(player.tokens[i], gs.diceValue)
  {
  }

  /** As written, while another seat is to move, the local player's own panel
      highlights a token whose click the handler then refuses. */
  lemma HighlightOffTurnAsWritten()
    ensures var me := "a";
            var mine := Player(me, Red, [5, 0, 0, 0]);
            var gs := GameState([mine, Player("b", Green, [0, 0, 0, 0])], 1, 3, WaitingForMove, "");
            0 in HighlightsAsWritten(gs, me, mine) && !MayMove(Some(gs), me)
  {
    var me := "a";
    var mine := Player(me, Red, [5, 0, 0, 0]);
    var gs := GameState([mine, Player("b", Green, [0, 0, 0, 0])], 1, 3, WaitingForMove, "");
    assert Clickable(mine.tokens[0], gs.diceValue);
    assert gs.players[1].id == "b" != me;
  }

  /** With the turn-aware prop, every highlighted token is one the click
      handler sends to the server, and nothing is highlighted off turn. */
  lemma HighlightedClickIsSent(gs: GameState, me: PlayerId, player: Player, i: nat)
    ensures i in Highlights(gs, me, player) ==> MayMove(Some(gs), me) && player.id == me
    ensures !IsCurrentPlayer(gs, me) ==> Highlights(gs, me, player) == {}
  {
  }

  /* ---------------- The client ---------------- */

  /** The messages this client shows. */
  datatype WorkBaseError = WrongPhaseToRoll | MustRollFirst | WaitingForPlayers(count: int)
                         | ServerMessage(msg: string)

  /** handleRollDice's guard. */
  predicate MayRoll(gameState: Option<GameState>, me: PlayerId) {
    gameState.Some? && IsCurrentPlayer(gameState.value, me) && gameState.value.status == WaitingForRoll
  }

  /** handleTokenClick's guard: unlike the canonical client there is no
      animation to wait for. */
  predicate MayMove(gameState: Option<GameState>, me: PlayerId) {
    gameState.Some? && IsCurrentPlayer(gameState.value, me) && gameState.value.status == WaitingForMove
  }

  /** The roll button, drawn only on the game screen, is enabled exactly when
      the handler would send the roll. */
  lemma RollButtonAgreesWithHandler(gs: GameState, me: PlayerId)
    ensures !(!IsCurrentPlayer(gs, me) || gs.status != WaitingForRoll || gs.status == GameOver)
            <==> MayRoll(Some(gs), me)
  {
  }

  class WorkBaseClient {
    const me: PlayerId
    var roomCode: string

    var gameState: Option<GameState>
    var isConnected: bool
    var error: Option<WorkBaseError>
    var diceDisplay: Option<int>
    var numPlayers: int
    var outbox: seq<Engine.Outbound>

    constructor (id: PlayerId, room: string)
      ensures me == id && roomCode == room
      ensures gameState == None && !isConnected && error == None && diceDisplay == None
      ensures numPlayers == 0 && outbox == []
    {
      me := id;
      roomCode := room;
      gameState := None;
      isConnected := false;
      error := None;
      diceDisplay := None;
      numPlayers := 0;
      outbox := [];
    }

    method OnConnect()
      modifies this
      ensures isConnected && error == None
      ensures gameState == old(gameState) && diceDisplay == old(diceDisplay)
      ensures numPlayers == old(numPlayers) && outbox == old(outbox) && roomCode == old(roomCode)
    {
      isConnected := true;
      error := None;
    }

    method OnDisconnect()
      modifies this
      ensures !isConnected && gameState == None && diceDisplay == None
      ensures error == old(error) && numPlayers == old(numPlayers)
      ensures outbox == old(outbox) && roomCode == old(roomCode)
    {
      isConnected := false;
      gameState := None;
      diceDisplay := None;
    }

    method OnGameStarted(state: GameState)
      modifies this
      ensures gameState == Some(state) && error == None && diceDisplay == None
      ensures isConnected == old(isConnected) && numPlayers == old(numPlayers)
      ensures outbox == old(outbox) && roomCode == old(roomCode)
    {
      gameState := Some(state);
      error := None;
      diceDisplay := None;
    }

    /** The update always replaces the state; the dice display is cleared
        exactly when it opens a new roll phase. */
    method OnGameStateUpdate(state: GameState)
      modifies this
      ensures gameState == Some(state)
      ensures diceDisplay == (if state.status == WaitingForRoll &&
                                 (old(gameState).None? || old(gameState).value.status != WaitingForRoll)
                              then None else old(diceDisplay))
      ensures isConnected == old(isConnected) && error == old(error) && numPlayers == old(numPlayers)
      ensures outbox == old(outbox) && roomCode == old(roomCode)
    {
      if state.status == WaitingForRoll && (gameState.None? || gameState.value.status != WaitingForRoll) {
        diceDisplay := None;
      }
      gameState := Some(state);
    }

    method OnPlayerJoined(count: int)
      modifies this
      ensures numPlayers == count
      ensures error == if old(gameState).None? then Some(WaitingForPlayers(count)) else old(error)
      ensures gameState == old(gameState) && isConnected == old(isConnected) && diceDisplay == old(diceDisplay)
      ensures outbox == old(outbox) && roomCode == old(roomCode)
    {
      numPlayers := count;
      if gameState.None? {
        error := Some(WaitingForPlayers(count));
      }
    }

    method OnDiceRolled(roll: int, state: GameState)
      modifies this
      ensures diceDisplay == Some(roll) && gameState == Some(state) && error == None
      ensures isConnected == old(isConnected) && numPlayers == old(numPlayers)
      ensures outbox == old(outbox) && roomCode == old(roomCode)
    {
      diceDisplay := Some(roll);
      gameState := Some(state);
      error := None;
    }

    method OnGameError(msg: string)
      modifies this
      ensures error == Some(ServerMessage(msg))
      ensures gameState == old(gameState) && isConnected == old(isConnected) && diceDisplay == old(diceDisplay)
      ensures numPlayers == old(numPlayers) && outbox == old(outbox) && roomCode == old(roomCode)
    {
      error := Some(ServerMessage(msg));
    }

    method OnGameOver(state: GameState)
      modifies this
      ensures gameState == Some(state) && error == None
      ensures isConnected == old(isConnected) && diceDisplay == old(diceDisplay)
      ensures numPlayers == old(numPlayers) && outbox == old(outbox) && roomCode == old(roomCode)
    {
      gameState := Some(state);
      error := None;
    }

    /** Sends the roll exactly when the guard holds; otherwise only sets the error. */
    method HandleRollDice()
      modifies this
      ensures MayRoll(old(gameState), me) ==>
                error == None && outbox == old(outbox) + [Engine.RollDiceRequest(roomCode)]
      ensures !MayRoll(old(gameState), me) ==> error == Some(WrongPhaseToRoll) && outbox == old(outbox)
      ensures gameState == old(gameState) && isConnected == old(isConnected) && diceDisplay == old(diceDisplay)
      ensures numPlayers == old(numPlayers) && roomCode == old(roomCode)
    {
      if gameState.None? || !IsCurrentPlayer(gameState.value, me) || gameState.value.status != WaitingForRoll {
        error := Some(WrongPhaseToRoll);
        return;
      }
      error := None;
      outbox := outbox + [Engine.RollDiceRequest(roomCode)];
    }

    /** Sends the move for any index exactly when the guard holds; the server
        judges legality. Otherwise only sets the error. */
    method HandleTokenClick(tokenIndex: int)
      modifies this
      ensures MayMove(old(gameState), me) ==>
                error == None && outbox == old(outbox) + [Engine.MoveTokenRequest(roomCode, tokenIndex)]
      ensures !MayMove(old(gameState), me) ==> error == Some(MustRollFirst) && outbox == old(outbox)
      ensures gameState == old(gameState) && isConnected == old(isConnected) && diceDisplay == old(diceDisplay)
      ensures numPlayers == old(numPlayers) && roomCode == old(roomCode)
    {
      if gameState.None? || !IsCurrentPlayer(gameState.value, me) || gameState.value.status != WaitingForMove {
        error := Some(MustRollFirst);
        return;
      }
      error := None;
      outbox := outbox + [Engine.MoveTokenRequest(roomCode, tokenIndex)];
    }

    /** The panel drawn for one seat of the shown state, with the turn prop the
        parent passes: the panel highlights the local player's own tokens
        whoever holds the turn. */
    method RenderPanel(player: Player) returns (view: PanelView)
      requires gameState.Some?
      ensures view == Panel(player.tokens, HighlightsAsWritten(gameState.value, me, player))
    {
      var gs := gameState.value;
      var movable := MovableTokens(player.tokens, PanelPropAsWritten(player, me), gs.status == WaitingForMove,
                                   gs.diceValue);
      view := Panel(player.tokens, movable);
    }
  }
}
