/** The canonical client's state machine: socket events, the two user actions,
    the animation timer and the pending-update effect, as transitions on one
    record of client state. The methods of Client.LudoClient are proved against
    these functions. */
module Engine {
  import opened LudoTypes
  import opened Topology
  import opened Moves
  import opened Animation

  /** The error banner the client shows. */
  datatype ClientError =
    | NotYourTurnToRoll        // the roll handler's rejection
    | NotYourTurnOrAnimating   // the token-click handler's rejection
    | IllegalMoveDetected      // the click produced an empty animation path
    | WaitingForPlayers(count: int)
    | ServerMessage(msg: string)

  /** A request the client emits on the socket. */
  datatype Outbound = RollDiceRequest(roomCode: string) | MoveTokenRequest(roomCode: string, tokenIndex: int)

  /** The component's state hooks; `outbox` records the emitted requests in order. */
  datatype ClientState = ClientState(
    gameState: Option<GameState>,
    isConnected: bool,
    error: Option<ClientError>,
    diceDisplay: Option<int>,
    numPlayers: int,
    animation: Option<AnimationTask>,
    isAwaitingMoveConfirm: bool,
    pendingUpdate: Option<GameState>,
    outbox: seq<Outbound>)

  /** The state of a freshly mounted client. */
  const Initial := ClientState(None, false, None, None, 0, None, false, None, [])

  predicate Running(s: ClientState) {
    s.animation.Some? && s.animation.value.isRunning
  }

  /** The gate's invariant: an animation's step names a cell of its path, a
      running animation always holds the gate, and an update is buffered only
      while an animation runs. */
  predicate Valid(s: ClientState) {
    (s.animation.Some? ==> WellFormed(s.animation.value))
    && (Running(s) ==> s.isAwaitingMoveConfirm)
    && (s.pendingUpdate.Some? ==> Running(s))
  }

  /** The pending-update effect: once no animation runs, the buffered state is
      shown and the gate opens. */
  function ApplyPending(s: ClientState): (t: ClientState)
    ensures t.pendingUpdate.Some? ==> Running(t)
    ensures t.animation == s.animation && t.outbox == s.outbox && t.error == s.error
    ensures t.diceDisplay == s.diceDisplay && t.isConnected == s.isConnected && t.numPlayers == s.numPlayers
    ensures s.pendingUpdate.Some? && !Running(s) ==>
              t.gameState == s.pendingUpdate && t.pendingUpdate.None? && !t.isAwaitingMoveConfirm
    ensures !(s.pendingUpdate.Some? && !Running(s)) ==> t == s
  {
    if s.pendingUpdate.Some? && !Running(s) then
      s.(gameState := s.pendingUpdate, pendingUpdate := None, isAwaitingMoveConfirm := false)
    else s
  }

  function OnConnect(s: ClientState): ClientState {
    s.(isConnected := true, error := None)
  }

  /** Disconnecting drops the shown state and the dice, but not the animation or the gate. */
  function OnDisconnect(s: ClientState): ClientState {
    s.(isConnected := false, gameState := None, diceDisplay := None)
  }

  function OnGameStarted(s: ClientState, state: GameState): ClientState {
    s.(gameState := Some(state), error := None, diceDisplay := None)
  }

  /** Whether an applied update starts a roll phase: the dice display is then cleared. */
  predicate EntersRollPhase(s: ClientState, state: GameState) {
    state.status == WaitingForRoll && (s.gameState.None? || s.gameState.value.status != WaitingForRoll)
  }

  /** handleGameStateUpdate: the reconciliation gate. */
  function OnGameStateUpdate(s: ClientState, state: GameState): (t: ClientState)
    ensures s.isAwaitingMoveConfirm ==> t.gameState == s.gameState && t.pendingUpdate == Some(state)
    ensures !s.isAwaitingMoveConfirm ==> t.gameState == Some(state) && t.pendingUpdate == s.pendingUpdate
    ensures !s.isAwaitingMoveConfirm ==>
              (t.diceDisplay.None? <==> EntersRollPhase(s, state) || s.diceDisplay.None?)
    ensures t.animation == s.animation && t.outbox == s.outbox && t.error == s.error
    ensures t.isAwaitingMoveConfirm == s.isAwaitingMoveConfirm
    ensures s.isAwaitingMoveConfirm ==> t == s.(pendingUpdate := Some(state))
    ensures !s.isAwaitingMoveConfirm ==>
              t == s.(gameState := Some(state), diceDisplay := if EntersRollPhase(s, state) then None else s.diceDisplay)
  {
    if s.isAwaitingMoveConfirm then s.(pendingUpdate := Some(state))
    else if EntersRollPhase(s, state) then s.(gameState := Some(state), diceDisplay := None)
    else s.(gameState := Some(state))
  }

  /** The lobby count message is shown only while no game is shown. */
  function OnPlayerJoined(s: ClientState, count: int): ClientState {
    s.(numPlayers := count, error := if s.gameState.None? then Some(WaitingForPlayers(count)) else s.error)
  }

  /** diceRolled bypasses the gate. */
  function OnDiceRolled(s: ClientState, roll: int, state: GameState): ClientState {
    s.(diceDisplay := Some(roll), gameState := Some(state), error := None)
  }

  function OnGameError(s: ClientState, msg: string): ClientState {
    s.(error := Some(ServerMessage(msg)))
  }

  /** gameOver bypasses the gate. */
  function OnGameOver(s: ClientState, state: GameState): ClientState {
    s.(gameState := Some(state), error := None)
  }

  /** One firing of the animation timer, which exists only while an animation runs. */
  function OnTick(s: ClientState): (t: ClientState)
    ensures Running(s) ==> t == s.(animation := Some(Tick(s.animation.value)))
    ensures !Running(s) ==> t == s
  {
    if Running(s) then s.(animation := Some(Tick(s.animation.value))) else s
  }

  /** The roll handler's guard. */
  predicate MayRoll(s: ClientState, me: PlayerId) {
    s.gameState.Some? && IsCurrentPlayer(s.gameState.value, me) && s.gameState.value.status == WaitingForRoll
  }

  /** handleRollDice: a roll request is emitted exactly when the guard holds;
      otherwise only the rejection banner is set. */
  function RollDice(s: ClientState, me: PlayerId, roomCode: string): (t: ClientState)
    ensures MayRoll(s, me) <==> t.outbox != s.outbox
    ensures MayRoll(s, me) ==> t.outbox == s.outbox + [RollDiceRequest(roomCode)] && t.error.None?
    ensures !MayRoll(s, me) ==> t.error == Some(NotYourTurnToRoll)
    ensures t == s.(error := t.error, outbox := t.outbox)
  {
    if !MayRoll(s, me) then s.(error := Some(NotYourTurnToRoll))
    else s.(error := None, outbox := s.outbox + [RollDiceRequest(roomCode)])
  }

  /** The token-click handler's guard. */
  predicate MayMove(s: ClientState, me: PlayerId) {
    s.gameState.Some? && IsCurrentPlayer(s.gameState.value, me)
    && s.gameState.value.status == WaitingForMove && !s.isAwaitingMoveConfirm
  }

  /** `gameState.players.find(p => p.id === socket.id)` on the local player's turn. */
  function MySeat(gs: GameState, me: PlayerId): (p: Player)
    requires IsCurrentPlayer(gs, me)
    ensures p in gs.players && p.id == me
  {
    CurrentPlayerIsFound(gs, me);
    gs.players[FindPlayer(gs.players, me).value]
  }

  /** The animation path of a click; an index outside the seat's tokens reads an
      undefined position, for which the path builder's loop runs no step. */
  function MovePath(p: Player, tokenIndex: int, dice: int): (path: seq<Cell>)
    ensures !(0 <= tokenIndex < |p.tokens|) ==> path == []
    ensures 0 <= tokenIndex < |p.tokens| ==> |path| == PathLength(p.color, p.tokens[tokenIndex], dice)
  {
    if 0 <= tokenIndex < |p.tokens| then GridPath(p.color, p.tokens[tokenIndex], dice) else []
  }

  /** Where the animation starts: the yard slot numbered by the token index for
      a yard token, otherwise the cell of its position. */
  function StartGridPos(p: Player, tokenIndex: int): (cell: Cell)
    requires 0 <= tokenIndex < |p.tokens|
    ensures 0 <= p.tokens[tokenIndex] <= TotalPathLength ==> OnBoard(cell)
  {
    if p.tokens[tokenIndex] == 0 then YardSlot(p.color, tokenIndex) else MapPathToGrid(p.color, p.tokens[tokenIndex])
  }

  /** handleTokenClick. */
  function ClickToken(s: ClientState, me: PlayerId, roomCode: string, tokenIndex: int): (t: ClientState)
    ensures MayMove(s, me) <==> t.outbox != s.outbox
    ensures MayMove(s, me) ==> t.outbox == s.outbox + [MoveTokenRequest(roomCode, tokenIndex)]
    ensures !MayMove(s, me) ==> t == s.(error := Some(NotYourTurnOrAnimating))
    ensures t.gameState == s.gameState && t.pendingUpdate == s.pendingUpdate
  {
    if !MayMove(s, me) then s.(error := Some(NotYourTurnOrAnimating))
    else
      var gs := s.gameState.value;
      var p := MySeat(gs, me);
      var path := MovePath(p, tokenIndex, gs.diceValue);
      var s1 :=
        if |path| > 0 then
          s.(animation := Some(AnimationTask(p.color, tokenIndex, path, 0, true, StartGridPos(p, tokenIndex))),
             isAwaitingMoveConfirm := true)
        else s.(error := Some(IllegalMoveDetected));
      s1.(outbox := s.outbox + [MoveTokenRequest(roomCode, tokenIndex)])
  }

  /** What the client reacts to. */
  datatype Event =
    | Connect
    | Disconnect
    | GameStarted(state: GameState)
    | GameStateUpdated(state: GameState)
    | PlayerJoined(count: int)
    | DiceRolled(roll: int, state: GameState)
    | GameError(msg: string)
    | GameOverPushed(state: GameState)
    | TimerFired
    | RollPressed
    | TokenClicked(tokenIndex: int)

  /** One event followed by the pending-update effect, which re-runs whenever
      the buffer or the running flag changes. */
  function Step(s: ClientState, e: Event, me: PlayerId, roomCode: string): (t: ClientState)
    ensures t.pendingUpdate.Some? ==> Running(t)
  {
    var s1 := match e
      case Connect => OnConnect(s)
      case Disconnect => OnDisconnect(s)
      case GameStarted(state) => OnGameStarted(s, state)
      case GameStateUpdated(state) => OnGameStateUpdate(s, state)
      case PlayerJoined(count) => OnPlayerJoined(s, count)
      case DiceRolled(roll, state) => OnDiceRolled(s, roll, state)
      case GameError(msg) => OnGameError(s, msg)
      case GameOverPushed(state) => OnGameOver(s, state)
      case TimerFired => OnTick(s)
      case RollPressed => RollDice(s, me, roomCode)
      case TokenClicked(tokenIndex) => ClickToken(s, me, roomCode, tokenIndex);
    ApplyPending(s1)
  }

  function Run(s: ClientState, es: seq<Event>, me: PlayerId, roomCode: string): ClientState
    decreases |es|
  {
    if |es| == 0 then s else Run(Step(s, es[0], me, roomCode), es[1..], me, roomCode)
  }

  /** n timer firings. */
  function Ticks(s: ClientState, n: nat, me: PlayerId, roomCode: string): ClientState {
    if n == 0 then s else Step(Ticks(s, n - 1, me, roomCode), TimerFired, me, roomCode)
  }

  // ----- The gate's invariant -----

  lemma InitialValid()
    ensures Valid(Initial) && !Running(Initial) && Initial.outbox == []
  {
  }

  /** A click never releases a buffered update: after it the pending-update
      effect has nothing to do, and the gate's invariant still holds. */
  lemma ClickLeavesNoEffect(s: ClientState, tokenIndex: int, me: PlayerId, roomCode: string)
    requires Valid(s)
    ensures Step(s, TokenClicked(tokenIndex), me, roomCode) == ClickToken(s, me, roomCode, tokenIndex)
    ensures Valid(ClickToken(s, me, roomCode, tokenIndex))
  {
    StepPreservesValid(s, TokenClicked(tokenIndex), me, roomCode);
  }

  /** Every event keeps the gate's invariant. */
  lemma StepPreservesValid(s: ClientState, e: Event, me: PlayerId, roomCode: string)
    requires Valid(s)
    ensures Valid(Step(s, e, me, roomCode))
  {
    if e.TokenClicked? && MayMove(s, me) {
      var gs := s.gameState.value;
      var p := MySeat(gs, me);
      var path := MovePath(p, e.tokenIndex, gs.diceValue);
      assert |path| > 0 ==> WellFormed(AnimationTask(p.color, e.tokenIndex, path, 0, true, StartGridPos(p, e.tokenIndex)));
    }
  }

  lemma {:induction false} RunPreservesValid(s: ClientState, es: seq<Event>, me: PlayerId, roomCode: string)
    requires Valid(s)
    ensures Valid(Run(s, es, me, roomCode))
    decreases |es|
  {
    if |es| > 0 {
      StepPreservesValid(s, es[0], me, roomCode);
      RunPreservesValid(Step(s, es[0], me, roomCode), es[1..], me, roomCode);
    }
  }

  // ----- The reconciliation gate -----

  /** While a move animates, a server update is only buffered: the shown state,
      the animation and the gate do not change. */
  lemma UpdateBufferedWhileAnimating(s: ClientState, state: GameState, me: PlayerId, roomCode: string)
    requires Valid(s) && Running(s)
    ensures Step(s, GameStateUpdated(state), me, roomCode) == s.(pendingUpdate := Some(state))
  {
  }

  /** Of two updates that arrive during one animation only the later is kept. */
  lemma LastUpdateWins(s: ClientState, a: GameState, b: GameState, me: PlayerId, roomCode: string)
    requires Valid(s) && Running(s)
    ensures Step(Step(s, GameStateUpdated(a), me, roomCode), GameStateUpdated(b), me, roomCode)
            == Step(s, GameStateUpdated(b), me, roomCode)
  {
  }

  /** With the gate open, an update is shown at once; the dice display is
      cleared exactly when the update starts a roll phase (or was already clear). */
  lemma UpdateAppliedWhenIdle(s: ClientState, state: GameState, me: PlayerId, roomCode: string)
    requires Valid(s) && !s.isAwaitingMoveConfirm
    ensures var t := Step(s, GameStateUpdated(state), me, roomCode);
            t.gameState == Some(state) && t.pendingUpdate.None? && !t.isAwaitingMoveConfirm
            && (t.diceDisplay.None? <==> EntersRollPhase(s, state) || s.diceDisplay.None?)
    ensures Step(s, GameStateUpdated(state), me, roomCode)
            == s.(gameState := Some(state), diceDisplay := if EntersRollPhase(s, state) then None else s.diceDisplay)
  {
  }

  /** An update that arrives after the animation ended but before the gate
      opened is shown at once and opens the gate; the dice display is kept. */
  lemma LateUpdateOpensGate(s: ClientState, state: GameState, me: PlayerId, roomCode: string)
    requires Valid(s) && s.isAwaitingMoveConfirm && !Running(s)
    ensures var t := Step(s, GameStateUpdated(state), me, roomCode);
            t.gameState == Some(state) && t.pendingUpdate.None? && !t.isAwaitingMoveConfirm
            && t.diceDisplay == s.diceDisplay
  {
  }

  /** One more timer firing. */
  lemma TicksNext(s: ClientState, n: nat, me: PlayerId, roomCode: string)
    ensures Ticks(s, n + 1, me, roomCode) == ApplyPending(OnTick(Ticks(s, n, me, roomCode)))
  {
  }

  /** A firing while a fresh animation is still at its j-th tick advances it
      by one; the one that ends it also runs the pending-update effect. */
  lemma TickWhileRunning(s: ClientState, j: nat)
    requires Valid(s) && Running(s) && s.animation.value.currentStep == 0
    requires j < |s.animation.value.path|
    ensures var a := s.animation.value;
            var t := ApplyPending(OnTick(s.(animation := Some(TickN(a, j)))));
            (j + 1 < |a.path| ==> t == s.(animation := Some(TickN(a, j + 1))))
            && (j + 1 == |a.path| ==> t == ApplyPending(s.(animation := Some(TickN(a, j + 1)))))
  {
    var a := s.animation.value;
    TicksToFinish(a, j);
    TicksToFinish(a, j + 1);
    assert TickN(a, j + 1) == Tick(TickN(a, j));
  }

  /** Once a fresh animation has ended, a firing changes nothing. */
  lemma TickAfterEnd(s: ClientState)
    requires Valid(s) && Running(s) && s.animation.value.currentStep == 0
    ensures var a := s.animation.value;
            var t := ApplyPending(s.(animation := Some(TickN(a, |a.path|))));
            ApplyPending(OnTick(t)) == t
  {
    TicksToFinish(s.animation.value, |s.animation.value.path|);
  }

  /** Timer firings during a fresh animation of N cells: the first N - 1 only
      advance the animation; the N-th clears the running flag and, if an update
      was buffered, shows it and opens the gate; later firings change nothing. */
  lemma {:induction false} TicksDriveAnimation(s: ClientState, k: nat, me: PlayerId, roomCode: string)
    requires Valid(s) && Running(s) && s.animation.value.currentStep == 0
    ensures var a := s.animation.value;
            k < |a.path| ==> Ticks(s, k, me, roomCode) == s.(animation := Some(TickN(a, k)))
    ensures var a := s.animation.value;
            k >= |a.path| ==> Ticks(s, k, me, roomCode) == ApplyPending(s.(animation := Some(TickN(a, |a.path|))))
  {
    if k > 0 {
      var m := k - 1;
      TicksDriveAnimation(s, m, me, roomCode);
      TicksNext(s, m, me, roomCode);
      if m < |s.animation.value.path| {
        TickWhileRunning(s, m);
      } else {
        TickAfterEnd(s);
      }
    }
  }

  /** Exactly N firings run an animation of N cells, and an update buffered
      before the end is shown once, right after the N-th: until then the shown
      state is the one from before the animation. */
  lemma PendingAppliedExactlyOnce(s: ClientState, k: nat, me: PlayerId, roomCode: string)
    requires Valid(s) && Running(s) && s.animation.value.currentStep == 0 && s.pendingUpdate.Some?
    ensures var n := |s.animation.value.path|;
            var t := Ticks(s, k, me, roomCode);
            (Running(t) <==> k < n)
            && (k < n ==> t.gameState == s.gameState && t.pendingUpdate == s.pendingUpdate && t.isAwaitingMoveConfirm)
            && (k >= n ==> t.gameState == s.pendingUpdate && t.pendingUpdate.None? && !t.isAwaitingMoveConfirm)
  {
    TicksDriveAnimation(s, k, me, roomCode);
    TicksToFinish(s.animation.value, k);
    TicksToFinish(s.animation.value, |s.animation.value.path|);
  }

  /** Two updates A then B during one fresh animation: after the animation,
      B is shown, and A was never shown at any point in between. */
  lemma OnlyLaterUpdateShown(s: ClientState, a: GameState, b: GameState, k: nat, me: PlayerId, roomCode: string)
    requires Valid(s) && Running(s) && s.animation.value.currentStep == 0
    ensures var u := Step(Step(s, GameStateUpdated(a), me, roomCode), GameStateUpdated(b), me, roomCode);
            var t := Ticks(u, k, me, roomCode);
            (k < |s.animation.value.path| ==> t.gameState == s.gameState)
            && (k >= |s.animation.value.path| ==> t.gameState == Some(b))
  {
    LastUpdateWins(s, a, b, me, roomCode);
    UpdateBufferedWhileAnimating(s, b, me, roomCode);
    var u := s.(pendingUpdate := Some(b));
    PendingAppliedExactlyOnce(u, k, me, roomCode);
  }

  /** Without a buffered update the N-th firing stops the animation but keeps
      the gate closed: the client waits for the server's state. */
  lemma GateWaitsForServer(s: ClientState, me: PlayerId, roomCode: string)
    requires Valid(s) && Running(s) && s.animation.value.currentStep == 0 && s.pendingUpdate.None?
    ensures var t := Ticks(s, |s.animation.value.path|, me, roomCode);
            !Running(t) && t.isAwaitingMoveConfirm && t.gameState == s.gameState
  {
    TicksDriveAnimation(s, |s.animation.value.path|, me, roomCode);
    TicksToFinish(s.animation.value, |s.animation.value.path|);
  }

  // ----- The user actions -----

  /** The roll button's enabled state: the handler's guard plus a closed gate check. */
  predicate RollButtonEnabled(s: ClientState, me: PlayerId) {
    s.gameState.Some? && IsCurrentPlayer(s.gameState.value, me)
    && s.gameState.value.status == WaitingForRoll && !s.isAwaitingMoveConfirm
  }

  /** The enabled button always gets a request out, and no roll can be
      requested through the button while a move animates. */
  lemma RollButtonAgreesWithHandler(s: ClientState, me: PlayerId, roomCode: string)
    requires Valid(s)
    ensures RollButtonEnabled(s, me) ==> RollDice(s, me, roomCode).outbox == s.outbox + [RollDiceRequest(roomCode)]
    ensures Running(s) ==> !RollButtonEnabled(s, me)
  {
  }

  /** A click while a move animates neither replaces the animation nor emits. */
  lemma NoSecondAnimation(s: ClientState, i: int, me: PlayerId, roomCode: string)
    requires Valid(s) && Running(s)
    ensures var t := Step(s, TokenClicked(i), me, roomCode);
            t.animation == s.animation && t.outbox == s.outbox && t.error == Some(NotYourTurnOrAnimating)
  {
  }

  /** An accepted click starts an animation exactly when its path is non-empty
      and otherwise flags the move as illegal; it emits the move either way. */
  lemma ClickOutcome(s: ClientState, i: int, me: PlayerId, roomCode: string)
    requires Valid(s) && MayMove(s, me)
    ensures var gs := s.gameState.value;
            var p := MySeat(gs, me);
            var path := MovePath(p, i, gs.diceValue);
            var t := Step(s, TokenClicked(i), me, roomCode);
            t.outbox == s.outbox + [MoveTokenRequest(roomCode, i)]
            && (Running(t) <==> |path| > 0)
            && (|path| > 0 ==> t.isAwaitingMoveConfirm && t.animation.value.path == path
                               && t.animation.value.tokenColor == p.color && t.animation.value.tokenIndex == i
                               && t.error == s.error)
            && (|path| == 0 ==> t.error == Some(IllegalMoveDetected) && t.animation == s.animation
                                && t.isAwaitingMoveConfirm == s.isAwaitingMoveConfirm)
  {
  }

  /** A move the predictor accepts with a positive dice value always animates. */
  lemma LegalMoveAnimates(color: Color, pos: int, dice: int)
    requires pos >= 0 && dice >= 1 && IsMoveLegal(pos, dice)
    ensures |GridPath(color, pos, dice)| > 0
  {
    if pos == 0 {
      YardExitPath(color);
    }
  }

  /** A click on a highlighted token (the seat's own, in the move phase, judged
      legal) with the gate open starts its animation. */
  lemma HighlightedClickAnimates(s: ClientState, i: int, me: PlayerId, roomCode: string)
    requires Valid(s) && MayMove(s, me)
    requires var gs := s.gameState.value;
             var p := MySeat(gs, me);
             0 <= i < |p.tokens| && p.tokens[i] >= 0 && gs.diceValue >= 1 && IsMoveLegal(p.tokens[i], gs.diceValue)
    ensures Running(Step(s, TokenClicked(i), me, roomCode))
  {
    var gs := s.gameState.value;
    var p := MySeat(gs, me);
    LegalMoveAnimates(p.color, p.tokens[i], gs.diceValue);
    ClickOutcome(s, i, me, roomCode);
  }

  /** A click from a seat that does not hold the turn is refused without emitting,
      whatever the rest of the state. */
  lemma ClickByOtherSeatRefused(s: ClientState, i: int, me: PlayerId, roomCode: string)
    requires s.gameState.Some? && !IsCurrentPlayer(s.gameState.value, me)
    ensures Step(s, TokenClicked(i), me, roomCode).outbox == s.outbox
    ensures Step(s, TokenClicked(i), me, roomCode).error == Some(NotYourTurnOrAnimating)
  {
  }

  /** Events that never touch the buffer or the running flag also never emit. */
  lemma OnlyActionsEmit(s: ClientState, e: Event, me: PlayerId, roomCode: string)
    requires !e.RollPressed? && !e.TokenClicked?
    ensures Step(s, e, me, roomCode).outbox == s.outbox
  {
  }
}
