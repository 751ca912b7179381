/** The legality predictor, the colour-relative index conversions and the
    animation path builder of the canonical client. */
module Moves {
  import opened LudoTypes
  import opened Topology

  /** isMoveLegal: the client-side advisory check of a move by `roll` from `tokenPos`. */
  function IsMoveLegal(tokenPos: int, roll: int): (legal: bool)
    ensures legal <==> (tokenPos == 0 && roll == 6)
                       || (0 < tokenPos < TotalPathLength && tokenPos + roll <= TotalPathLength)
  {
    if tokenPos == 0 then roll == 6
    else
      var newPosition := tokenPos + roll;
      if newPosition > TotalPathLength then false
      else if tokenPos > 0 && tokenPos < TotalPathLength then true
      else false
  }

  /** The exact-count finish rule and the yard rule, as the predictor encodes them. */
  lemma PredictorRules(tokenPos: int, roll: int)
    ensures tokenPos == 0 ==> (IsMoveLegal(tokenPos, roll) <==> roll == 6)
    ensures tokenPos != 0 && tokenPos + roll > TotalPathLength ==> !IsMoveLegal(tokenPos, roll)
    ensures 1 <= tokenPos <= 57 && tokenPos + roll <= TotalPathLength ==> IsMoveLegal(tokenPos, roll)
    ensures tokenPos == TotalPathLength ==> !IsMoveLegal(tokenPos, roll)
  {
  }

  /** getPlayerPathIndex: a server position as a step count from the colour's own entry. */
  function PlayerPathIndex(color: Color, currentPos: int): (idx: int)
    ensures currentPos == 0 ==> idx == 0
    ensures currentPos > MaxMainPath ==> idx == currentPos
    ensures 1 <= currentPos <= MaxMainPath ==> 1 <= idx <= MaxMainPath
    ensures currentPos == StartIndex(color) ==> idx == 1
  {
    if currentPos == 0 then 0
    else if currentPos > MaxMainPath then currentPos
    else
      var relativeIndex := currentPos - StartIndex(color);
      var wrapped := if relativeIndex < 0 then relativeIndex + MaxMainPath else relativeIndex;
      wrapped + 1
  }

  /** getServerBoardIndex: a colour's step count back to a server ring position. */
  function ServerBoardIndex(color: Color, playerPathIndex: int): (pos: int)
    ensures playerPathIndex > MaxMainPath ==> pos == playerPathIndex
    ensures 1 <= playerPathIndex <= MaxMainPath ==> 1 <= pos <= MaxMainPath
    ensures playerPathIndex == 1 ==> pos == StartIndex(color)
  {
    if playerPathIndex > MaxMainPath then playerPathIndex
    else
      var serverIndex := StartIndex(color) + playerPathIndex - 1;
      if serverIndex > MaxMainPath then serverIndex - MaxMainPath else serverIndex
  }

  /** The two conversions are mutually inverse on the ring and both are the
      identity on the home column and the finish. */
  lemma IndexRoundTrip(color: Color, p: int)
    ensures 1 <= p <= MaxMainPath ==> ServerBoardIndex(color, PlayerPathIndex(color, p)) == p
    ensures 1 <= p <= MaxMainPath ==> PlayerPathIndex(color, ServerBoardIndex(color, p)) == p
    ensures 53 <= p <= TotalPathLength ==> PlayerPathIndex(color, p) == p && ServerBoardIndex(color, p) == p
  {
  }

  /** The first player index the path builder visits is one past this. */
  function PathStart(color: Color, startPos: int, diceRoll: int): int {
    if startPos == 0 && diceRoll == 6 then 0 else PlayerPathIndex(color, startPos)
  }

  /** The last player index the path builder would visit, before the cap at 58. */
  function PathEnd(color: Color, startPos: int, diceRoll: int): int {
    if startPos == 0 && diceRoll == 6 then 6 else PlayerPathIndex(color, startPos) + diceRoll
  }

  /** The server position pushed for player index i. */
  function StepIndex(color: Color, i: int): int {
    if i > MaxMainPath then i else ServerBoardIndex(color, i)
  }

  /** How many indices the path builder pushes: one per step up to min(pEnd, 58). */
  function PathLength(color: Color, startPos: int, diceRoll: int): nat {
    var s := PathStart(color, startPos, diceRoll);
    var e := if PathEnd(color, startPos, diceRoll) < TotalPathLength then PathEnd(color, startPos, diceRoll) else TotalPathLength;
    if e <= s then 0 else e - s
  }

  /** The server positions a move traverses, in order. */
  function PathIndices(color: Color, startPos: int, diceRoll: int): (idx: seq<int>)
    ensures |idx| == PathLength(color, startPos, diceRoll)
  {
    var s := PathStart(color, startPos, diceRoll);
    seq(PathLength(color, startPos, diceRoll), k => StepIndex(color, s + 1 + k))
  }

  /** The cells a move traverses: PathIndices mapped through the topology. */
  function GridPath(color: Color, startPos: int, diceRoll: int): (path: seq<Cell>)
    ensures |path| == PathLength(color, startPos, diceRoll)
  {
    var idx := PathIndices(color, startPos, diceRoll);
    seq(|idx|, k requires 0 <= k < |idx| => MapPathToGrid(color, idx[k]))
  }

  /** generateGridPath: pushes one server index per step, stopping past 58,
      then maps each index to its cell. */
  method GenerateGridPath(color: Color, startPos: int, diceRoll: int) returns (path: seq<Cell>)
    ensures path == GridPath(color, startPos, diceRoll)
  {
    var pathIndices: seq<int> := [];
    var pStart := PlayerPathIndex(color, startPos);
    var pEnd := pStart + diceRoll;
    if startPos == 0 && diceRoll == 6 {
      pStart := 0;
      pEnd := 6;
    }
    ghost var n := PathLength(color, startPos, diceRoll);
    var i := pStart + 1;
    while i <= pEnd
      invariant pStart == PathStart(color, startPos, diceRoll) && pEnd == PathEnd(color, startPos, diceRoll)
      invariant pStart + 1 <= i <= pStart + 1 + n
      invariant i - pStart - 1 < n ==> i <= pEnd && i <= TotalPathLength
      invariant pathIndices == PathIndices(color, startPos, diceRoll)[..i - pStart - 1]
      decreases pEnd - i
    {
      if i > TotalPathLength {
        break;
      }
      var serverIndex;
      if i > MaxMainPath {
        serverIndex := i;
      } else {
        serverIndex := ServerBoardIndex(color, i);
      }
      assert i - pStart - 1 < n && serverIndex == StepIndex(color, i);
      assert serverIndex == PathIndices(color, startPos, diceRoll)[i - pStart - 1];
      pathIndices := pathIndices + [serverIndex];
      i := i + 1;
    }
    assert pathIndices == PathIndices(color, startPos, diceRoll);
    path := [];
    var k := 0;
    while k < |pathIndices|
      invariant 0 <= k <= |pathIndices|
      invariant path == GridPath(color, startPos, diceRoll)[..k]
    {
      path := path + [MapPathToGrid(color, pathIndices[k])];
      k := k + 1;
    }
  }

  /** A path never has more cells than the dice shows, never passes 58, and
      lists consecutive player indices in increasing order. */
  lemma PathIndicesShape(color: Color, startPos: int, diceRoll: int, k: int)
    requires 0 <= startPos <= TotalPathLength
    requires 0 <= k < |PathIndices(color, startPos, diceRoll)|
    ensures |PathIndices(color, startPos, diceRoll)| <= if diceRoll < 0 then 0 else diceRoll
    ensures 1 <= PathIndices(color, startPos, diceRoll)[k] <= TotalPathLength
    ensures PlayerPathIndex(color, PathIndices(color, startPos, diceRoll)[k]) == PathStart(color, startPos, diceRoll) + 1 + k
  {
    var s := PathStart(color, startPos, diceRoll);
    var i := s + 1 + k;
    assert PathIndices(color, startPos, diceRoll)[k] == StepIndex(color, i);
    assert 0 <= s;
    IndexRoundTrip(color, i);
  }

  /** A move the predictor accepts from the ring or home column animates exactly
      `diceRoll` steps, unless it would pass the colour's own finish. */
  lemma LegalMoveLength(color: Color, startPos: int, diceRoll: int)
    requires 1 <= startPos <= 57 && diceRoll >= 0
    requires PlayerPathIndex(color, startPos) + diceRoll <= TotalPathLength
    ensures |GridPath(color, startPos, diceRoll)| == diceRoll
  {
  }

  /** Leaving the yard with a six animates six cells that start on the
      colour's ring entry, which is its painted start square. */
  lemma YardExitPath(color: Color)
    ensures |GridPath(color, 0, 6)| == 6
    ensures PathIndices(color, 0, 6) == seq(6, k => StartIndex(color) + k)
    ensures GridPath(color, 0, 6)[0] == StaticStartCell(color)
  {
    var idx := PathIndices(color, 0, 6);
    forall k | 0 <= k < 6 ensures idx[k] == StartIndex(color) + k {
      assert idx[k] == StepIndex(color, 1 + k);
    }
    StartCellsMatchRing(color, color);
  }
}
