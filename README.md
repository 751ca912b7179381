# Ludo client: a verified model

This project models the browser client of an online four-player Ludo game.
The server is authoritative: it rolls the dice, checks moves, resolves
captures and turn order, and pushes a snapshot of the game after every
change. The client keeps very little logic of its own:

- it draws each seat's tokens on a 15x15 board, or in per-seat panels;
- it highlights the tokens the local player may click;
- it emits `rollDice` and `moveToken` requests;
- in the canonical component (`src/App.jsx`), it plays an optimistic,
  step-by-step animation of the local player's move. While the animation
  runs, server updates are held back behind a gate. The newest one is shown
  once the animation ends.

The model covers four files:

- `src/App.jsx`, the canonical client. Its pieces are:
  - the position-to-cell topology (`topology.dfy`);
  - the legality predictor, the colour-relative index conversions and the
    animation path builder (`moves.dfy`);
  - the animation timer step (`animation.dfy`);
  - the memoised `squares` dictionary of the board (`squares.dfy`,
    `board_state.dfy`);
  - the whole event machine of the component: socket events, the two user
    actions, the timer and the pending-update effect. `engine.dfy` states it
    as transitions on a record. `client.dfy` is a class whose fields are the
    component's state hooks. Each handler method there is proved to perform
    exactly the corresponding `Engine.Step`.
- `src/utils/getTileProps.js`, the static tile classifier (`tile_props.dfy`).
- `src/workbase.jsx`, a board-less variant with per-seat panels
  (`workbase.dfy`).
- `src/work1.jsx`, an earlier board variant with its own tables
  (`work1.dfy`). Its socket handlers and user actions are the same as in
  `src/workbase.jsx`, so `WorkBase.WorkBaseClient` models both.

Modelling conventions:

- Seat colours are a closed enumeration of four colours.
- Positions and dice values are unbounded integers. A missing (`null`) dice
  value is the integer 0. The client only compares dice with 6 and adds them
  to positions, and in both uses `null` and 0 behave alike.
- `socket.id` is the constant `me` of each client object.
- Emitted requests are appended to an `outbox` sequence.
- One firing of the animation timer is one call of `OnTimer`.
- React re-runs the pending-update effect whenever its inputs change. The
  model runs it after every event (`Engine.Step`), which gives the same result.
- A square key `${r}-${c}` is a datatype value, which is injective just as
  the text is for integer pairs. The text `undefined-undefined` is its own
  value, `UndefinedKey`.
- In `src/work1.jsx` the builder method builds the dictionary as written,
  `WorkOne.Board(AsWritten, …)`. `WorkOne.Board(Corrected, …)` is the same
  dictionary with the three slips listed under "## Findings" corrected.
  The yard pass's `map` over the filtered positions and the `forEach` that
  pushes the mapped records are one loop in the model: the records are
  pushed in the order they are made, and nothing runs between the two.
- In `src/workbase.jsx` the client draws each panel with the prop the parent
  passes (`WorkBase.WorkBaseClient.RenderPanel`). `WorkBase.Highlights` is
  the turn-aware highlight set the finding calls for.
- The server deals each seat its own colour (`WorkOne.DistinctColors`). A
  token's view on the board carries only its colour and index, so the lemma
  saying that a token is nowhere else on the board assumes it.

Behaviour a reader might not expect, which the model keeps:

- On `disconnect` the canonical client clears only the game state and the
  dice display. A running animation, a buffered update and the gate flag all
  survive (`Engine.OnDisconnect`).
- A payload the client does not understand is not turned into a
  "no game" state.
- Nothing reverts an optimistic animation that the server later rejects. The
  gate then stays closed until the next server update
  (`Engine.GateWaitsForServer`).

Behaviour of the canonical client that the code shows and the model proves
as it is:

- The animation never draws `path[0]`. The token jumps from its start cell
  straight to `path[1]`, and the last tick only stops the timer
  (`Animation.TicksToFinish`).
- The start cell of a clicked yard token is `YARD_AREAS[color][tokenIndex]`,
  while the board draws it at the slot of its rank among the yard tokens.
- The roll handler does not look at the gate. Only the roll button does.
- The comment at `src/App.jsx:51` calls home offset 1 the entry of the home
  column. The code puts offset 1 next to the centre, (8, 7) for red, and
  offset 5 at the ring end (`Topology.HomeStripShape`). The model follows
  the code.
- The classifier's start-point label is the three-character text that a
  UTF-8 black star becomes when read as Windows-1252. The rest of the
  client draws the star itself (`TileProps.StarLabelMisencoded`).

## Model

| member | source | states |
|---|---|---|
| LudoTypes.FindPlayer | src/App.jsx:741 | the seat found by `players.find` is the first one whose id matches; none is found only when no id matches |
| LudoTypes.CurrentPlayerIsFound | src/App.jsx:582-584 | when the local player holds the turn, the lookup of their seat by id always succeeds |
| Topology.MapPathToGrid | src/App.jsx:44-89 | 58 is the centre (8,8); 53..57 is the colour's home strip, cell k is at distance k from the centre; ring positions 1..52 are on the board; every other position falls back to (0,0) |
| Topology.RingCell | src/App.jsx:64-89 | the ring table puts positions 1..52 on the board and answers (0,0) for every other key |
| Topology.StartIndex | src/App.jsx:249-254 | each colour enters the ring at a position in 1..52, and the four entries lie 13 apart |
| Topology.HomeStrip | src/App.jsx:50-60 | each colour's home column is five cells on the board, none of them the centre |
| Topology.StaticStartCell | src/App.jsx:402-406 | each painted start square is on the board and in no yard corner |
| Topology.RingIgnoresColour | src/App.jsx:64-89 | outside the home column the cell of a position does not depend on the colour |
| Topology.HomeStripShape | src/App.jsx:50-60 | each home strip is a straight run of adjacent cells on row or column 8; its first cell touches the centre |
| Topology.StartCellsMatchRing | src/App.jsx:402-406 | each colour's ring entry (1, 14, 27, 40) is drawn on the start square painted for that colour, and the four start squares are distinct |
| Topology.RingTableAnomalies | src/App.jsx:66-85 | the ring table is not injective (6 and 45 share a cell), and 13 and 7 fall on a yellow and a blue home cell |
| Topology.YardSlot | src/App.jsx:25-30 | every yard slot, the fallback to slot 0 included, is on the board inside its colour's painted corner |
| Topology.YardSlotsDistinct | src/App.jsx:25-30 | the four yard slots of a colour are distinct |
| Moves.IsMoveLegal | src/App.jsx:264-282 | a move is legal iff it leaves the yard on a six, or starts strictly between yard and finish and does not overshoot 58 |
| Moves.PredictorRules | src/App.jsx:264-282 | a yard move needs a six, an overshoot is never legal, any exact or short move from 1..57 is legal, a finished token never moves |
| Moves.PlayerPathIndex | src/App.jsx:517-533 | the yard is index 0, home positions keep their number, ring positions become 1..52 counted from the colour's entry, and the entry is 1 |
| Moves.ServerBoardIndex | src/App.jsx:535-547 | home indices keep their number, a ring index 1..52 becomes a ring position, and index 1 is the colour's entry |
| Moves.IndexRoundTrip | src/App.jsx:517-547 | the two conversions are inverse to each other on the ring, in both directions, and both are the identity on 53..58 |
| Moves.PathIndices | src/App.jsx:549-574 | the builder pushes one server position per player index from pStart+1 up to min(pEnd, 58) |
| Moves.GridPath | src/App.jsx:559-577 | the animation path has one cell per pushed position |
| Moves.GenerateGridPath | src/App.jsx:549-578 | the loop with its break at 58 and the final map return exactly GridPath |
| Moves.PathIndicesShape | src/App.jsx:559-574 | a path has no more cells than the dice shows, every position lies in 1..58, and it lists consecutive player indices in order |
| Moves.LegalMoveLength | src/App.jsx:553-574 | a move that stays within 58 animates exactly as many cells as the dice shows |
| Moves.YardExitPath | src/App.jsx:555-560 | leaving the yard on six animates six cells, the ring entry and the five after it, starting on the painted start square |
| Animation.Tick | src/App.jsx:668-689 | a tick advances to the next cell and shows it, or stops when the path is exhausted; a stopped animation is untouched and the token, path and well-formedness are kept |
| Animation.TicksToFinish | src/App.jsx:668-689 | a fresh animation of N cells runs exactly N ticks; tick k < N shows path[k], and the last tick only stops |
| Squares.PushEffect | src/App.jsx:308-313 | a push appends the token to its square's list, creating the square when absent, and changes no other square |
| Squares.Push | src/App.jsx:308-313 | one push onto the dictionary; its effect is stated by PushEffect |
| Squares.Group | src/App.jsx:286-354 | the dictionary after a sequence of pushes; what it lists is stated by GroupMembers |
| Squares.GroupNonEmpty | src/App.jsx:308-313 | no square is ever created empty |
| Squares.GroupMembers | src/App.jsx:286-348 | a square exists iff some push targeted it, and a token is listed on it iff some push put it there |
| BoardState.YardIndices | src/App.jsx:293 | the yard filter returns indices of yard tokens only |
| BoardState.YardIndicesExact | src/App.jsx:293 | the yard filter lists every yard token, in increasing index order |
| BoardState.YardRank | src/App.jsx:295-297 | the yard slot index of a yard token is its rank among the seat's yard tokens |
| BoardState.MovableFlag | src/App.jsx:311-348 | a token is highlighted when the local player holds the turn in the move phase, owns the token and the predictor accepts the move |
| BoardState.Placements | src/App.jsx:286-354 | the pushes in order: every seat's yard tokens, then every seat's board tokens, the token in flight left out; PlacementsSound states what each push is |
| BoardState.Board | src/App.jsx:286-354 | the dictionary of those pushes, with no empty square |
| BoardState.PlacementsSound | src/App.jsx:286-348 | every push puts a seat's own token, not in flight, on its yard slot or position cell, with the highlight rule's flag; no token is pushed twice |
| BoardState.BoardListsEveryToken | src/App.jsx:289-345 | every token in the yard or on the board that is not in flight is listed on its square, with its highlight |
| BoardState.BoardListsOnlyTokens | src/App.jsx:286-348 | a square lists only tokens of the snapshot, each on its own cell and not in flight |
| BoardState.HighlightOnlyForLocalTurn | src/App.jsx:308-313 | a highlighted token belongs to the local player, on their turn in the move phase, with a move the predictor accepts |
| BoardState.AnimatingTokenHidden | src/App.jsx:257-325 | the token in flight is listed on no square |
| BoardState.CollectYardTokens | src/App.jsx:293 | the filter loop returns YardIndices |
| BoardState.PushYardTokens | src/App.jsx:290-314 | one seat's yard pass adds exactly that seat's yard pushes |
| BoardState.YardPass | src/App.jsx:290-314 | the first pass over all seats builds the dictionary of all yard pushes |
| BoardState.PushPathTokens | src/App.jsx:317-351 | one seat's board pass adds exactly that seat's board pushes |
| BoardState.BoardPass | src/App.jsx:317-351 | the second pass, run on the yard dictionary, completes Board |
| BoardState.BuildBoardState | src/App.jsx:286-348 | the two nested passes build exactly the dictionary Board describes |
| Engine.ApplyPending | src/App.jsx:692-699 | once no animation runs, the buffered state is shown, the buffer empties and the gate opens; otherwise nothing changes |
| Engine.EntersRollPhase | src/App.jsx:603 | the test for clearing the dice display: the update is in waiting_for_roll and the shown state is absent or in another phase |
| Engine.OnGameStateUpdate | src/App.jsx:597-609 | with the gate closed the update is only buffered and nothing else changes; with it open it is shown, the dice display is cleared if a roll phase begins and kept otherwise, and nothing else changes |
| Engine.OnTick | src/App.jsx:668-689 | the timer advances a running animation by one Tick and otherwise does nothing |
| Engine.RollDice | src/App.jsx:725-733 | a roll request is emitted iff the game exists, the turn is the local player's and the phase is waiting_for_roll; otherwise only the error changes |
| Engine.MayRoll | src/App.jsx:726 | the roll guard: a game is shown, the local player holds the turn and the phase is waiting_for_roll |
| Engine.MySeat | src/App.jsx:741 | on the local player's turn the seat found by id is a seat of the snapshot with that id |
| Engine.MayMove | src/App.jsx:736 | the click guard: a game is shown, the local player holds the turn, the phase is waiting_for_move and no move awaits confirmation |
| Engine.MovePath | src/App.jsx:741-749 | the animation path of a token; an index outside the seat's tokens has an empty path, any other has PathLength cells |
| Engine.StartGridPos | src/App.jsx:752-759 | the start cell of an animation is on the board for every position in 0..58 |
| Engine.ClickToken | src/App.jsx:735-778 | a move is emitted iff the game exists, it is the local turn, the phase is waiting_for_move and no move awaits confirmation; a refused click only sets the error |
| Engine.InitialValid | src/App.jsx:500-514 | the mounted client satisfies the gate invariant, runs no animation and has emitted nothing |
| Engine.Step | src/App.jsx:596-778 | one event runs its handler, then the pending-update effect, so a buffered update only survives while an animation runs |
| Engine.StepPreservesValid | src/App.jsx:596-778 | every event keeps the invariant: a well-formed animation, a running animation holds the gate, an update is buffered only while one runs |
| Engine.RunPreservesValid | src/App.jsx:596-778 | any sequence of events keeps the invariant |
| Engine.UpdateBufferedWhileAnimating | src/App.jsx:597-601 | during an animation an update changes only the buffer |
| Engine.LastUpdateWins | src/App.jsx:597-601 | of two updates during one animation only the later is kept |
| Engine.UpdateAppliedWhenIdle | src/App.jsx:601-607 | with the gate open an update, effect included, changes exactly the shown state and, on entering the roll phase, clears the dice display |
| Engine.LateUpdateOpensGate | src/App.jsx:597-699 | an update after the animation stopped but before the gate opened is shown at once and opens the gate, keeping the dice display |
| Engine.ClickLeavesNoEffect | src/App.jsx:692-699 | a click never releases a buffered update: after it the pending-update effect changes nothing, and the invariant holds |
| Engine.TicksDriveAnimation | src/App.jsx:668-699 | the first N-1 firings only advance an N-cell animation; the N-th stops it and applies a buffered update |
| Engine.PendingAppliedExactlyOnce | src/App.jsx:668-699 | a buffered update is shown exactly after the N-th firing; before it the old state stays and the gate stays closed |
| Engine.OnlyLaterUpdateShown | src/App.jsx:597-699 | two updates A then B during a fresh animation: A is never shown, B is shown once the animation ends |
| Engine.GateWaitsForServer | src/App.jsx:680-697 | without a buffered update the finished animation leaves the gate closed and the shown state unchanged |
| Engine.RollButtonAgreesWithHandler | src/App.jsx:868 | the enabled roll button always gets a request out, and it is never enabled while a move animates |
| Engine.NoSecondAnimation | src/App.jsx:736-738 | a click during an animation neither replaces it nor emits |
| Engine.ClickOutcome | src/App.jsx:741-776 | an accepted click emits the move; it starts an animation of the token with its path iff the path is non-empty, and otherwise flags an illegal move |
| Engine.LegalMoveAnimates | src/App.jsx:747-749 | a move the predictor accepts with a positive dice value has a non-empty path |
| Engine.HighlightedClickAnimates | src/App.jsx:735-770 | clicking a highlighted token with the gate open starts its animation |
| Engine.ClickByOtherSeatRefused | src/App.jsx:736-738 | a click from a seat that does not hold the turn is refused without emitting |
| Engine.OnlyActionsEmit | src/App.jsx:611-653 | socket events and the timer never emit a request |
| Client.LudoClient.constructor | src/App.jsx:500-514 | a new client holds the initial state |
| Client.LudoClient.ApplyPendingEffect | src/App.jsx:692-699 | the effect performs Engine.ApplyPending on the fields |
| Client.LudoClient.OnConnect | src/App.jsx:611-614 | the handler performs Engine.Step for `connect` and keeps the invariant |
| Client.LudoClient.OnDisconnect | src/App.jsx:616-620 | the handler performs Engine.Step for `disconnect` and keeps the invariant |
| Client.LudoClient.OnGameStarted | src/App.jsx:622-627 | the handler performs Engine.Step for `gameStarted` and keeps the invariant |
| Client.LudoClient.OnGameStateUpdate | src/App.jsx:597-609 | the handler and the effect after it perform Engine.Step for `gameStateUpdate` and keep the invariant |
| Client.LudoClient.OnPlayerJoined | src/App.jsx:631-636 | the handler performs Engine.Step for `playerJoined` and keeps the invariant |
| Client.LudoClient.OnDiceRolled | src/App.jsx:638-642 | the handler performs Engine.Step for `diceRolled` and keeps the invariant |
| Client.LudoClient.OnGameError | src/App.jsx:644-647 | the handler performs Engine.Step for `gameError` and keeps the invariant |
| Client.LudoClient.OnGameOver | src/App.jsx:649-653 | the handler performs Engine.Step for `gameOver` and keeps the invariant |
| Client.LudoClient.OnTimer | src/App.jsx:670-685 | the timer callback and the effect after it perform Engine.Step for a firing and keep the invariant |
| Client.LudoClient.HandleRollDice | src/App.jsx:725-733 | the handler performs Engine.Step for a roll press and keeps the invariant |
| Client.LudoClient.FindSeat | src/App.jsx:741 | the search loop returns the first seat with the id, as FindPlayer |
| Client.LudoClient.HandleTokenClick | src/App.jsx:735-778 | the handler, with its path loop, performs Engine.Step for a click and keeps the invariant |
| Client.LudoClient.RenderBoard | src/App.jsx:286-348 | the board drawn for the shown state is Board of that state and animation |
| TileProps.GetTileProps | src/utils/getTileProps.js:4-64 | no cell of any integer coordinates reaches the error fallback |
| TileProps.BaseCorners | src/utils/getTileProps.js:6-9 | a cell is a base iff both coordinates lie outside 6..8; each corner has its colour, labelled only at (3,3), (3,11), (11,3), (11,11) |
| TileProps.CentreBlock | src/utils/getTileProps.js:12-22 | the centre type is exactly rows and columns 6..8, labelled HOME only at (7,7) |
| TileProps.HomeStrips | src/utils/getTileProps.js:25-39 | the home-path type is exactly the four strips, each with its colour |
| TileProps.StartPoints | src/utils/getTileProps.js:42-51 | exactly (6,1), (1,8), (8,13) and (13,6) are start points, each with its own colour |
| TileProps.Some10Exact | src/utils/getTileProps.js:56-57 | the `.some` scan is true iff the cell is in the safe list |
| TileProps.SafeSquaresOnOpenTrack | src/utils/getTileProps.js:53-57 | every listed safe square lies on the cross and in no region an earlier test claims |
| TileProps.TrackCells | src/utils/getTileProps.js:53-60 | a cell is safe iff it is in the list; the rest of the cross, outside the earlier regions, is plain track; with their colours |
| TileProps.NoErrorTile | src/utils/getTileProps.js:62-63 | the error fallback is dead for every pair of integers |
| TileProps.StarLabelMisencoded | src/utils/getTileProps.js:50 | a start point is labelled with a three-character text that is not the star |
| WorkBase.MovableTokens | src/workbase.jsx:64-79 | the set is empty off turn or outside the move phase; otherwise index i is in it iff it is a yard token on a six or its position is in 1..57 |
| WorkBase.HighlightSet | src/workbase.jsx:64-79 | the highlight set the loop computes; MovableTokens states its members |
| WorkBase.HighlightBounds | src/workbase.jsx:65-77 | a highlighted token is never finished or outside 0..57, and a highlighted yard token means a six |
| WorkBase.HighlightIgnoresOvershoot | src/workbase.jsx:73-76 | a token one short of the finish is highlighted on any roll, though the canonical predictor rejects the move |
| WorkBase.CountOf | src/workbase.jsx:57-58 | a count never exceeds the number of tokens counted |
| WorkBase.CountOfIsMultiplicity | src/workbase.jsx:57-58 | the count is exactly the number of occurrences of the value among the tokens counted |
| WorkBase.PathTokensExact | src/workbase.jsx:82-84 | pathTokens holds exactly the tokens strictly inside the track with their own positions, in index order |
| WorkBase.BucketsPartition | src/workbase.jsx:57-58 | for positions in 0..58 the yard count, the on-board count and the finished count add up to the number of tokens |
| WorkBase.BucketCounts | src/workbase.jsx:57-84 | the three panel counts add up to the seat's tokens |
| WorkBase.ChipsCounted | src/workbase.jsx:105-115 | a row draws one chip per token at its position, as many as its printed count |
| WorkBase.ChipsComplete | src/workbase.jsx:105-115 | every token at the row's position has a chip in the row |
| WorkBase.ChipsAt | src/workbase.jsx:105-115 | the chips of one row, in token order; ChipsCounted and ChipsComplete state which |
| WorkBase.Panel | src/workbase.jsx:99-163 | the three rows and two counts of a panel; PanelShape states how they agree |
| WorkBase.ChipsAgreeWithHighlight | src/workbase.jsx:112 | a chip is clickable iff its token is highlighted |
| WorkBase.PanelShape | src/workbase.jsx:99-163 | the printed yard and finished counts match the chips drawn, the board row has one chip per path token, and no finished chip is clickable |
| WorkBase.PanelPropAsWritten | src/workbase.jsx:417 | the panel's turn prop as the parent passes it: the panel is the local player's |
| WorkBase.PanelProp | src/workbase.jsx:417 | the corrected prop: the panel is the local player's and they hold the turn |
| WorkBase.HighlightedAsWritten | src/workbase.jsx:64-79 | with the prop as the parent passes it, a token is highlighted iff the panel is the local player's, the phase is waiting_for_move and the token is clickable, whoever holds the turn |
| WorkBase.HighlightOffTurnAsWritten | src/workbase.jsx:417 | as written, the local player's panel highlights a token while another seat holds the turn, and that click is refused |
| WorkBase.HighlightedClickIsSent | src/workbase.jsx:53-79 | with the turn-aware prop, a highlighted token is the local player's, and its click is sent; nothing is highlighted off turn |
| WorkBase.RollButtonAgreesWithHandler | src/workbase.jsx:394 | the roll button is enabled exactly when the handler sends the roll |
| WorkBase.WorkBaseClient.constructor | src/workbase.jsx:172-177 | a new client holds no game, no error, no dice and has emitted nothing |
| WorkBase.WorkBaseClient.OnConnect | src/workbase.jsx:193-196 | connects and clears the error, nothing else |
| WorkBase.WorkBaseClient.OnDisconnect | src/workbase.jsx:198-202 | disconnects and clears the game and the dice display, nothing else |
| WorkBase.WorkBaseClient.OnGameStarted | src/workbase.jsx:204-209 | shows the new game and clears the error and the dice display |
| WorkBase.WorkBaseClient.OnGameStateUpdate | src/workbase.jsx:211-218 | the update always replaces the state; the dice display is cleared iff the update enters the roll phase from another phase |
| WorkBase.WorkBaseClient.OnPlayerJoined | src/workbase.jsx:220-225 | records the count and shows the waiting message only when no game is shown |
| WorkBase.WorkBaseClient.OnDiceRolled | src/workbase.jsx:227-231 | shows the roll and the new state and clears the error |
| WorkBase.WorkBaseClient.OnGameError | src/workbase.jsx:233-236 | shows the server's message, nothing else |
| WorkBase.WorkBaseClient.OnGameOver | src/workbase.jsx:238-242 | shows the final state and clears the error |
| WorkBase.WorkBaseClient.HandleRollDice | src/workbase.jsx:279-287 | emits the roll iff the local player holds the turn in waiting_for_roll; otherwise only sets the error |
| WorkBase.WorkBaseClient.HandleTokenClick | src/workbase.jsx:289-297 | emits the move iff the local player holds the turn in waiting_for_move; otherwise only sets the error |
| WorkBase.WorkBaseClient.RenderPanel | src/workbase.jsx:53-167 | a seat's panel is drawn with the prop `player.id === socket.id` the parent passes, that is from HighlightsAsWritten |
| WorkOne.MapPathToGridCases | src/work1.jsx:39-52 | 58 and 53..57 give `{row, col}` records along the colour's strip; ring positions give `{r, c}` cells inside 1..14; other positions give `{r: 0, c: 0}` |
| WorkOne.CorrectPathMap | src/work1.jsx:213-225 | the table has exactly the keys 1..52, and each maps inside rows and columns 1..14 |
| WorkOne.MapPathToGrid | src/work1.jsx:39-52 | the lookup answers a `{row, col}` record exactly for 53..58 |
| WorkOne.RingTableCollides | src/work1.jsx:216-218 | the ring table sends 18 and 30 to one cell |
| WorkOne.CanTokenMove | src/work1.jsx:328-332 | a yard token needs a six, a token in 1..57 may be tried, a finished token never |
| WorkOne.CanTokenMoveMatchesPanel | src/work1.jsx:328-332 | the check agrees with the other variant's panel test |
| WorkOne.KeyAsWritten | src/work1.jsx:373-374 | the `{r, c}` destructuring gives `undefined-undefined` exactly for a `{row, col}` record |
| WorkOne.KeyOf | src/work1.jsx:373-374 | reading the record by its own field names always gives a cell key, the as-written one for `{r, c}` records |
| WorkOne.HomeTokensLostAsWritten | src/work1.jsx:372-374 | as written, home-column and finished tokens are filed under a key the grid never draws |
| WorkOne.PathKeysDrawn | src/work1.jsx:373-374 | reading the record by its own field names, every token past the yard lands on a drawn square, and ring keys are unchanged |
| WorkOne.YardArea | src/work1.jsx:352-361 | every yard cell, fallback included, lies in rows and columns 3..11 |
| WorkOne.IndexOf | src/work1.jsx:343 | indexOf returns the first index holding the value, or -1 when there is none |
| WorkOne.BoardMovableMeaning | src/work1.jsx:388 | a board token is highlighted iff the local player holds the turn in waiting_for_move and the token is theirs |
| WorkOne.FinishedTokenHighlighted | src/work1.jsx:372-388 | a finished token of the local player is highlighted on their move, though canTokenMove rejects it |
| WorkOne.YardOwnershipAsWritten | src/work1.jsx:347 | as written, another seat's yard tokens are highlighted on the local player's six, and the click handler's guard then lets the click through |
| WorkOne.YardMovableOnlyOwn | src/work1.jsx:347 | with the ownership test, a yard token is highlighted iff it is the local player's, on their move and a six |
| WorkOne.YardEntry | src/work1.jsx:339-364 | a yard push of a seat carries that seat's colour and lands on a drawn yard cell, in either reading |
| WorkOne.PathEntry | src/work1.jsx:368-391 | a token is pushed by the board pass iff its position is in 1..58, once, as its own index and seat |
| WorkOne.Board | src/work1.jsx:324-395 | the dictionary of the yard pushes then the board pushes, in either reading, with no empty square |
| WorkOne.YardIndexAsWritten | src/work1.jsx:342-349 | as written, two yard entries both name the first yard token |
| WorkOne.YardEntriesExact | src/work1.jsx:339-349 | in the corrected dictionary each yard entry names a distinct yard token of its seat, and every yard token is named |
| WorkOne.BoardListsPathToken | src/work1.jsx:368-392 | in either dictionary every token past the yard is listed with its colour, index and highlight under its key; that key is drawn iff the dictionary is the corrected one or the token is on the ring, and as written a token at 53..58 is under `undefined-undefined` |
| WorkOne.HomeTokenPushes | src/work1.jsx:336-392 | as written, the only push that carries a home-column or finished token is its own board push, under `undefined-undefined` |
| WorkOne.HomeTokenNotDrawn | src/work1.jsx:368-403 | in the dictionary the builder builds, a token at 53..58 is listed under `undefined-undefined` and on no square the grid draws |
| WorkOne.CollectYard | src/work1.jsx:339 | the filter loop returns one zero per yard token of the seat |
| WorkOne.PushYard | src/work1.jsx:336-364 | one seat's yard pass, with `indexOf(pos)` and the flag without the ownership test, pushes that seat's as-written yard entries |
| WorkOne.PushPath | src/work1.jsx:367-392 | one seat's board pass pushes the seat's tokens at 1..58 in index order under their `{r, c}` keys |
| WorkOne.BuildBoardState | src/work1.jsx:324-395 | the two nested passes build exactly the as-written dictionary, Board(AsWritten) |

## Left out

- Unknown colours: the `default` branch of the home-column switch and the fall-through that follows cannot arise, because colours are a closed enumeration of four.
- Rendering: JSX, the Tailwind class strings, `COLOR_MAP`, the centre-triangle overlays, BoardTile styling and the `style`/`clipPath` record of the centre tile.
- Square metadata: the `r`, `c`, `pos`, `isStart`, `isSafe`, `isYard` and `homeColorKey` fields of a square in `src/App.jsx`, and the `r`, `c`, `pos`, `hasStart`, `hasSafe` and `colorKey` fields in `src/work1.jsx`. They are set by the first push onto a square and only style it. The model keeps the token lists.
- Layout: `MovingToken`'s percentage positioning is float layout math.
- The socket singleton: connect/once/emit plumbing and `handleJoinGame` with its room-code input, in all three clients. Emits are an abstract outbox.
- Time: `setTimeout`/`clearTimeout`. ANIMATION_SPEED is not modelled, and one timer firing is one `OnTimer` call.
- React scheduling: effect order, and the stale closures between re-registrations of the socket listeners. Each listener sees the state current at its call.
- Dead code in `src/work1.jsx`: `pathMap`, `grid`, `pathCoords` and `index` in its position lookup (lines 55-207). They are computed and never read.
- Console logging.
- Server-side rules: dice randomness, captures, extra turns and win adjudication are not in the client.
- Client.LudoClient.HandleTokenClick: an index outside the seat's tokens is modelled as an empty path. The original's `undefined` start position ends in a `NaN` comparison that also pushes nothing.

## Findings

| source | as written | input that shows it | evidently intended | confidence | as-written member | corrected member |
|---|---|---|---|---|---|---|
| src/work1.jsx:41-51, 373-374 | the centre and home-column records use `row`/`col`, but the board pass destructures `r`/`c`, so all such tokens go under the key `undefined-undefined` | a red token at position 53 | the token is drawn at (7, 1) | medium, not executed | WorkOne.HomeTokenNotDrawn | WorkOne.BoardListsPathToken |
| src/work1.jsx:342-349 | every yard entry takes `tokenIndex = player.tokens.indexOf(0)` | tokens [0, 7, 0, 9]: both yard chips are token 0 | the entries are tokens 0 and 2 | high, not executed | WorkOne.YardIndexAsWritten | WorkOne.YardEntriesExact |
| src/work1.jsx:347 | a yard token's highlight does not check whose yard it is | seat "a" to move with a six; seat "b" has yard tokens | only the local player's yard tokens are highlighted, as on the board pass at line 388 | medium, not executed | WorkOne.YardOwnershipAsWritten | WorkOne.YardMovableOnlyOwn |
| src/workbase.jsx:417 | the panel's `isCurrentPlayer` prop is `player.id === socket.id`, so the local panel always shows "[YOUR TURN]" and highlights tokens in another seat's move phase | local player at seat 0, seat 1 to move, status waiting_for_move, a token at 5 | the prop also requires the turn, as the handler's own check does | medium, not executed | WorkBase.HighlightOffTurnAsWritten | WorkBase.HighlightedClickIsSent |
