/** The canonical client component as an object: its state hooks are fields,
    each handler updates them in place, and each handler is proved to perform
    exactly the transition Engine.Step describes. */
module Client {
  import opened LudoTypes
  import opened Topology
  import opened Moves
  import opened Animation
  import opened BoardState
  import Engine

  class LudoClient {
    /** The local session's socket id. */
    const me: PlayerId
    var roomCode: string

    var gameState: Option<GameState>
    var isConnected: bool
    var error: Option<Engine.ClientError>
    var diceDisplay: Option<int>
    var numPlayers: int
    var animation: Option<AnimationTask>
    var isAwaitingMoveConfirm: bool
    var pendingUpdate: Option<GameState>
    var outbox: seq<Engine.Outbound>

    /** The hooks as one value. */
    function Snapshot(): Engine.ClientState
      reads this
    {
      Engine.ClientState(gameState, isConnected, error, diceDisplay, numPlayers, animation,
                         isAwaitingMoveConfirm, pendingUpdate, outbox)
    }

    predicate Valid()
      reads this
    {
      Engine.Valid(Snapshot())
    }

    constructor (id: PlayerId, room: string)
      ensures me == id && roomCode == room
      ensures Snapshot() == Engine.Initial && Valid()
    {
      me := id;
      roomCode := room;
      gameState := None;
      isConnected := false;
      error := None;
      diceDisplay := None;
      numPlayers := 0;
      animation := None;
      isAwaitingMoveConfirm := false;
      pendingUpdate := None;
      outbox := [];
    }

    /** The pending-update effect. */
    method ApplyPendingEffect()
      modifies this
      ensures roomCode == old(roomCode)
      ensures Snapshot() == Engine.ApplyPending(old(Snapshot()))
    {
      if pendingUpdate.Some? && !(animation.Some? && animation.value.isRunning) {
        gameState := pendingUpdate;
        pendingUpdate := None;
        isAwaitingMoveConfirm := false;
      }
    }

    method OnConnect()
      requires Valid()
      modifies this
      ensures roomCode == old(roomCode) && Valid()
      ensures Snapshot() == Engine.Step(old(Snapshot()), Engine.Connect, me, roomCode)
    {
      isConnected := true;
      error := None;
      Engine.StepPreservesValid(old(Snapshot()), Engine.Connect, me, roomCode);
    }

    method OnDisconnect()
      requires Valid()
      modifies this
      ensures roomCode == old(roomCode) && Valid()
      ensures Snapshot() == Engine.Step(old(Snapshot()), Engine.Disconnect, me, roomCode)
    {
      isConnected := false;
      gameState := None;
      diceDisplay := None;
      Engine.StepPreservesValid(old(Snapshot()), Engine.Disconnect, me, roomCode);
    }

    method OnGameStarted(state: GameState)
      requires Valid()
      modifies this
      ensures roomCode == old(roomCode) && Valid()
      ensures Snapshot() == Engine.Step(old(Snapshot()), Engine.GameStarted(state), me, roomCode)
    {
      gameState := Some(state);
      error := None;
      diceDisplay := None;
      Engine.StepPreservesValid(old(Snapshot()), Engine.GameStarted(state), me, roomCode);
    }

    /** handleGameStateUpdate, then the pending-update effect. */
    method OnGameStateUpdate(state: GameState)
      requires Valid()
      modifies this
      ensures roomCode == old(roomCode) && Valid()
      ensures Snapshot() == Engine.Step(old(Snapshot()), Engine.GameStateUpdated(state), me, roomCode)
    {
      if isAwaitingMoveConfirm {
        pendingUpdate := Some(state);
      } else {
        if state.status == WaitingForRoll && (gameState.None? || gameState.value.status != WaitingForRoll) {
          diceDisplay := None;
        }
        gameState := Some(state);
      }
      ApplyPendingEffect();
      Engine.StepPreservesValid(old(Snapshot()), Engine.GameStateUpdated(state), me, roomCode);
    }

    method OnPlayerJoined(count: int)
      requires Valid()
      modifies this
      ensures roomCode == old(roomCode) && Valid()
      ensures Snapshot() == Engine.Step(old(Snapshot()), Engine.PlayerJoined(count), me, roomCode)
    {
      numPlayers := count;
      if gameState.None? {
        error := Some(Engine.WaitingForPlayers(count));
      }
      Engine.StepPreservesValid(old(Snapshot()), Engine.PlayerJoined(count), me, roomCode);
    }

    method OnDiceRolled(roll: int, state: GameState)
      requires Valid()
      modifies this
      ensures roomCode == old(roomCode) && Valid()
      ensures Snapshot() == Engine.Step(old(Snapshot()), Engine.DiceRolled(roll, state), me, roomCode)
    {
      diceDisplay := Some(roll);
      gameState := Some(state);
      error := None;
      Engine.StepPreservesValid(old(Snapshot()), Engine.DiceRolled(roll, state), me, roomCode);
    }

    method OnGameError(msg: string)
      requires Valid()
      modifies this
      ensures roomCode == old(roomCode) && Valid()
      ensures Snapshot() == Engine.Step(old(Snapshot()), Engine.GameError(msg), me, roomCode)
    {
      error := Some(Engine.ServerMessage(msg));
      Engine.StepPreservesValid(old(Snapshot()), Engine.GameError(msg), me, roomCode);
    }

    method OnGameOver(state: GameState)
      requires Valid()
      modifies this
      ensures roomCode == old(roomCode) && Valid()
      ensures Snapshot() == Engine.Step(old(Snapshot()), Engine.GameOverPushed(state), me, roomCode)
    {
      gameState := Some(state);
      error := None;
      Engine.StepPreservesValid(old(Snapshot()), Engine.GameOverPushed(state), me, roomCode);
    }

    /** The animation timer's callback, then the pending-update effect. */
    method OnTimer()
      requires Valid()
      modifies this
      ensures roomCode == old(roomCode) && Valid()
      ensures Snapshot() == Engine.Step(old(Snapshot()), Engine.TimerFired, me, roomCode)
    {
      if animation.Some? && animation.value.isRunning {
        var a := animation.value;
        var nextStep := a.currentStep + 1;
        if nextStep < |a.path| {
          animation := Some(a.(currentStep := nextStep, currentGridPos := a.path[nextStep]));
        } else {
          animation := Some(a.(isRunning := false));
        }
      }
      ApplyPendingEffect();
      Engine.StepPreservesValid(old(Snapshot()), Engine.TimerFired, me, roomCode);
    }

    method HandleRollDice()
      requires Valid()
      modifies this
      ensures roomCode == old(roomCode) && Valid()
      ensures Snapshot() == Engine.Step(old(Snapshot()), Engine.RollPressed, me, roomCode)
    {
      if gameState.None? || !IsCurrentPlayer(gameState.value, me) || gameState.value.status != WaitingForRoll {
        error := Some(Engine.NotYourTurnToRoll);
      } else {
        error := None;
        outbox := outbox + [Engine.RollDiceRequest(roomCode)];
      }
      Engine.StepPreservesValid(old(Snapshot()), Engine.RollPressed, me, roomCode);
    }

    /** `players.find(p => p.id === socket.id)`. */
    static method FindSeat(players: seq<Player>, id: PlayerId) returns (r: Option<nat>)
      ensures r == FindPlayer(players, id)
    {
      var i := 0;
      while i < |players|
        invariant 0 <= i <= |players|
        invariant forall j :: 0 <= j < i ==> players[j].id != id
      {
        if players[i].id == id {
          FirstMatchIsFound(players, id, i);
          return Some(i);
        }
        i := i + 1;
      }
      NoMatchIsNone(players, id);
      return None;
    }

    static lemma {:induction false} FirstMatchIsFound(players: seq<Player>, id: PlayerId, i: nat)
      requires i < |players| && players[i].id == id
      requires forall j :: 0 <= j < i ==> players[j].id != id
      ensures FindPlayer(players, id) == Some(i)
    {
      if i > 0 {
        FirstMatchIsFound(players[1..], id, i - 1);
      }
    }

    static lemma NoMatchIsNone(players: seq<Player>, id: PlayerId)
      requires forall j :: 0 <= j < |players| ==> players[j].id != id
      ensures FindPlayer(players, id) == None
    {
    }

    method HandleTokenClick(tokenIndex: int)
      requires Valid()
      modifies this
      ensures roomCode == old(roomCode) && Valid()
      ensures Snapshot() == Engine.Step(old(Snapshot()), Engine.TokenClicked(tokenIndex), me, roomCode)
    {
      ghost var s0 := Snapshot();
      if gameState.None? || !IsCurrentPlayer(gameState.value, me)
         || gameState.value.status != WaitingForMove || isAwaitingMoveConfirm {
        error := Some(Engine.NotYourTurnOrAnimating);
        Engine.ClickLeavesNoEffect(s0, tokenIndex, me, roomCode);
        return;
      }
      var gs := gameState.value;
      CurrentPlayerIsFound(gs, me);
      var seat := FindSeat(gs.players, me);
      var tokenPlayer := gs.players[seat.value];
      assert tokenPlayer == Engine.MySeat(gs, me);
      var path: seq<Cell> := [];
      if 0 <= tokenIndex < |tokenPlayer.tokens| {
        path := GenerateGridPath(tokenPlayer.color, tokenPlayer.tokens[tokenIndex], gs.diceValue);
      }
      assert path == Engine.MovePath(tokenPlayer, tokenIndex, gs.diceValue);
      if |path| > 0 {
        var startGridPos;
        if tokenPlayer.tokens[tokenIndex] == 0 {
          startGridPos := YardSlot(tokenPlayer.color, tokenIndex);
        } else {
          startGridPos := MapPathToGrid(tokenPlayer.color, tokenPlayer.tokens[tokenIndex]);
        }
        assert startGridPos == Engine.StartGridPos(tokenPlayer, tokenIndex);
        animation := Some(AnimationTask(tokenPlayer.color, tokenIndex, path, 0, true, startGridPos));
        isAwaitingMoveConfirm := true;
      } else {
        error := Some(Engine.IllegalMoveDetected);
      }
      outbox := outbox + [Engine.MoveTokenRequest(roomCode, tokenIndex)];
      assert Snapshot() == Engine.ClickToken(s0, me, roomCode, tokenIndex);
      Engine.ClickLeavesNoEffect(s0, tokenIndex, me, roomCode);
    }

    /** The board the grid draws for the shown state. */
    method RenderBoard() returns (squares: map<Cell, seq<TokenView>>)
      requires gameState.Some?
      ensures squares == Board(gameState.value, me, animation)
    {
      squares := BuildBoardState(gameState.value, me, animation);
    }
  }
}
