/** The board-state builder of the canonical client: which tokens are drawn on
    which square, and which of them are highlighted as movable. */
module BoardState {
  import opened LudoTypes
  import opened Topology
  import opened Moves
  import opened Animation
  import opened Squares

  /** A token as one square of the board lists it. */
  datatype TokenView = TokenView(tokenColor: Color, tokenIndex: int, isMovable: bool)

  type Placement = Entry<Cell, TokenView>

  /** The token the running animation draws in flight. */
  predicate IsTokenAnimating(animation: Option<AnimationTask>, color: Color, tokenIndex: int) {
    animation.Some? && animation.value.isRunning
    && animation.value.tokenColor == color && animation.value.tokenIndex == tokenIndex
  }

  /** The highlight rule. The grid compares `player.id` with `myPlayer?.id`, the id
      of the first seat whose id is the local session's, which holds exactly
      when `player.id` is the local session's id. */
  predicate MovableFlag(gs: GameState, me: PlayerId, player: Player, pos: int) {
    IsCurrentPlayer(gs, me) && gs.status == WaitingForMove && player.id == me && IsMoveLegal(pos, gs.diceValue)
  }

  /** The indices i < n whose token is in the yard, in increasing order. */
  function YardIndices(tokens: seq<int>, n: nat): (r: seq<nat>)
    requires n <= |tokens|
    ensures forall j :: 0 <= j < |r| ==> r[j] < n && tokens[r[j]] == 0
  {
    if n == 0 then [] else YardIndices(tokens, n - 1) + (if tokens[n - 1] == 0 then [n - 1] else [])
  }

  /** YardIndices lists every yard index below n, in strictly increasing order. */
  lemma {:induction false} YardIndicesExact(tokens: seq<int>, n: nat)
    requires n <= |tokens|
    ensures forall i :: 0 <= i < n && tokens[i] == 0 ==> i in YardIndices(tokens, n)
    ensures forall j, j' :: 0 <= j < j' < |YardIndices(tokens, n)| ==> YardIndices(tokens, n)[j] < YardIndices(tokens, n)[j']
  {
    if n > 0 {
      YardIndicesExact(tokens, n - 1);
    }
  }

  /** The yard token at index yard[j] is the j-th yard token: j of them come before it. */
  lemma {:induction false} YardRank(tokens: seq<int>, n: nat, j: nat)
    requires n <= |tokens| && j < |YardIndices(tokens, n)|
    ensures |YardIndices(tokens, YardIndices(tokens, n)[j])| == j
  {
    var prev := YardIndices(tokens, n - 1);
    if j < |prev| {
      assert YardIndices(tokens, n)[j] == prev[j];
      YardRank(tokens, n - 1, j);
    } else {
      assert YardIndices(tokens, n)[j] == n - 1;
    }
  }

  /** What every push of the builder satisfies: the token belongs to the owning
      seat, is not in flight, sits in the yard slot of its rank or on the cell of
      its position, and is highlighted exactly by the highlight rule. */
  predicate PlacementOk(gs: GameState, me: PlayerId, animation: Option<AnimationTask>, e: Placement) {
    e.owner < |gs.players| &&
    var p := gs.players[e.owner];
    var t := e.item.tokenIndex;
    e.item.tokenColor == p.color && 0 <= t < |p.tokens| && p.tokens[t] >= 0
    && !IsTokenAnimating(animation, p.color, t)
    && e.item.isMovable == MovableFlag(gs, me, p, p.tokens[t])
    && (p.tokens[t] == 0 ==> e.key == YardSlot(p.color, |YardIndices(p.tokens, t)|))
    && (p.tokens[t] > 0 ==> e.key == MapPathToGrid(p.color, p.tokens[t]))
  }

  /** No two pushes list the same token. */
  predicate DistinctTokens(ps: seq<Placement>) {
    forall k, k' :: 0 <= k < k' < |ps| ==>
      ps[k].owner != ps[k'].owner || ps[k].item.tokenIndex != ps[k'].item.tokenIndex
  }

  /** Two push lists with no token in common concatenate to one without repeats. */
  lemma DistinctConcat(a: seq<Placement>, b: seq<Placement>)
    requires DistinctTokens(a) && DistinctTokens(b)
    requires forall k, k' :: 0 <= k < |a| && 0 <= k' < |b| ==>
               a[k].owner != b[k'].owner || a[k].item.tokenIndex != b[k'].item.tokenIndex
    ensures DistinctTokens(a + b)
  {
    var ab := a + b;
    forall k, k' | 0 <= k < k' < |ab|
      ensures ab[k].owner != ab[k'].owner || ab[k].item.tokenIndex != ab[k'].item.tokenIndex
    {
      if k' < |a| {
        assert ab[k] == a[k] && ab[k'] == a[k'];
      } else if k < |a| {
        assert ab[k] == a[k] && ab[k'] == b[k' - |a|];
      } else {
        assert ab[k] == b[k - |a|] && ab[k'] == b[k' - |a|];
      }
    }
  }

  /** The push, if any, for the n-th yard token of seat o (counting from 0):
      it goes to yard slot n, unless it is the token in flight. */
  function YardPush(gs: GameState, me: PlayerId, animation: Option<AnimationTask>, o: nat, n: nat): seq<Placement>
    requires o < |gs.players| && n < |YardIndices(gs.players[o].tokens, |gs.players[o].tokens|)|
  {
    var p := gs.players[o];
    var t := YardIndices(p.tokens, |p.tokens|)[n];
    if IsTokenAnimating(animation, p.color, t) then []
    else [Entry(YardSlot(p.color, n), TokenView(p.color, t, MovableFlag(gs, me, p, 0)), o)]
  }

  /** The yard pushes of seat o for its first n yard tokens. */
  function YardPlacements(gs: GameState, me: PlayerId, animation: Option<AnimationTask>, o: nat, n: nat)
    : seq<Placement>
    requires o < |gs.players| && n <= |YardIndices(gs.players[o].tokens, |gs.players[o].tokens|)|
  {
    if n == 0 then [] else YardPlacements(gs, me, animation, o, n - 1) + YardPush(gs, me, animation, o, n - 1)
  }

  /** The push, if any, for token t of seat o in the board pass: only tokens
      past the yard that are not in flight are drawn. */
  function PathPush(gs: GameState, me: PlayerId, animation: Option<AnimationTask>, o: nat, t: nat): seq<Placement>
    requires o < |gs.players| && t < |gs.players[o].tokens|
  {
    var p := gs.players[o];
    var pos := p.tokens[t];
    if pos > 0 && !IsTokenAnimating(animation, p.color, t)
    then [Entry(MapPathToGrid(p.color, pos), TokenView(p.color, t, MovableFlag(gs, me, p, pos)), o)]
    else []
  }

  /** The board-pass pushes of seat o for its tokens below index n. */
  function PathPlacements(gs: GameState, me: PlayerId, animation: Option<AnimationTask>, o: nat, n: nat)
    : seq<Placement>
    requires o < |gs.players| && n <= |gs.players[o].tokens|
  {
    if n == 0 then [] else PathPlacements(gs, me, animation, o, n - 1) + PathPush(gs, me, animation, o, n - 1)
  }

  /** The number of yard tokens of seat o. */
  function YardCount(gs: GameState, o: nat): nat
    requires o < |gs.players|
  {
    |YardIndices(gs.players[o].tokens, |gs.players[o].tokens|)|
  }

  /** The yard pass over the first n seats. */
  function AllYard(gs: GameState, me: PlayerId, animation: Option<AnimationTask>, n: nat): seq<Placement>
    requires n <= |gs.players|
  {
    if n == 0 then []
    else AllYard(gs, me, animation, n - 1) + YardPlacements(gs, me, animation, n - 1, YardCount(gs, n - 1))
  }

  /** The board pass over the first n seats. */
  function AllPath(gs: GameState, me: PlayerId, animation: Option<AnimationTask>, n: nat): seq<Placement>
    requires n <= |gs.players|
  {
    if n == 0 then []
    else AllPath(gs, me, animation, n - 1) + PathPlacements(gs, me, animation, n - 1, |gs.players[n - 1].tokens|)
  }

  /** Every push of the builder, in push order: all yards first, then the board. */
  function Placements(gs: GameState, me: PlayerId, animation: Option<AnimationTask>): seq<Placement> {
    AllYard(gs, me, animation, |gs.players|) + AllPath(gs, me, animation, |gs.players|)
  }

  /** The `boardState` dictionary. */
  function Board(gs: GameState, me: PlayerId, animation: Option<AnimationTask>): (b: map<Cell, seq<TokenView>>)
    ensures forall k :: k in b ==> |b[k]| > 0
  {
    GroupNonEmpty(Placements(gs, me, animation));
    Group(Placements(gs, me, animation))
  }

  lemma YardPushSound(gs: GameState, me: PlayerId, animation: Option<AnimationTask>, o: nat, n: nat)
    requires o < |gs.players| && n < YardCount(gs, o)
    ensures var ps := YardPush(gs, me, animation, o, n);
            |ps| <= 1 && PushesOk(gs, me, animation, ps, o, o + 1, true)
            && forall k :: 0 <= k < |ps| ==>
                 ps[k].item.tokenIndex == YardIndices(gs.players[o].tokens, |gs.players[o].tokens|)[n]
  {
    var p := gs.players[o];
    YardRank(p.tokens, |p.tokens|, n);
  }

  lemma PathPushSound(gs: GameState, me: PlayerId, animation: Option<AnimationTask>, o: nat, t: nat)
    requires o < |gs.players| && t < |gs.players[o].tokens|
    ensures var ps := PathPush(gs, me, animation, o, t);
            |ps| <= 1 && PushesOk(gs, me, animation, ps, o, o + 1, false)
            && forall k :: 0 <= k < |ps| ==> ps[k].item.tokenIndex == t
  {
  }

  /** Every push in ps is a sound push (PlacementOk) for a seat in [lo, hi),
      of a yard token when inYard holds and of a token past the yard otherwise. */
  predicate PushesOk(gs: GameState, me: PlayerId, animation: Option<AnimationTask>, ps: seq<Placement>,
                     lo: nat, hi: nat, inYard: bool)
  {
    forall k :: 0 <= k < |ps| ==>
      (lo <= ps[k].owner < hi && PlacementOk(gs, me, animation, ps[k])
       && (inYard <==> gs.players[ps[k].owner].tokens[ps[k].item.tokenIndex] == 0))
  }

  /** Every push in ps lists a token index below `bound`. */
  predicate IndicesBelow(ps: seq<Placement>, bound: int) {
    forall k :: 0 <= k < |ps| ==> ps[k].item.tokenIndex < bound
  }

  /** One seat's yard pushes: each is a yard token of that seat in its rank's
      slot, in increasing index order. */
  lemma {:induction false} YardPlacementsSound(gs: GameState, me: PlayerId, animation: Option<AnimationTask>,
                                               o: nat, n: nat)
    requires o < |gs.players| && n <= YardCount(gs, o)
    ensures PushesOk(gs, me, animation, YardPlacements(gs, me, animation, o, n), o, o + 1, true)
    ensures n > 0 ==> IndicesBelow(YardPlacements(gs, me, animation, o, n),
                                   YardIndices(gs.players[o].tokens, |gs.players[o].tokens|)[n - 1] + 1)
    ensures DistinctTokens(YardPlacements(gs, me, animation, o, n))
  {
    if n > 0 {
      var p := gs.players[o];
      var yard := YardIndices(p.tokens, |p.tokens|);
      var m := n - 1;
      var prev := YardPlacements(gs, me, animation, o, m);
      var last := YardPush(gs, me, animation, o, m);
      YardPlacementsSound(gs, me, animation, o, m);
      YardPushSound(gs, me, animation, o, m);
      if m > 0 {
        YardIndicesExact(p.tokens, |p.tokens|);
        IndicesBelowWeaken(prev, yard[m - 1] + 1, yard[m]);
      }
      AppendOne(gs, me, animation, prev, last, o, true, yard[m]);
      assert YardPlacements(gs, me, animation, o, m + 1) == prev + last;
    }
  }

  /** One seat's board pushes: each is a token of that seat past the yard,
      drawn on its position's cell, in increasing index order. */
  lemma {:induction false} PathPlacementsSound(gs: GameState, me: PlayerId, animation: Option<AnimationTask>,
                                               o: nat, n: nat)
    requires o < |gs.players| && n <= |gs.players[o].tokens|
    ensures PushesOk(gs, me, animation, PathPlacements(gs, me, animation, o, n), o, o + 1, false)
    ensures IndicesBelow(PathPlacements(gs, me, animation, o, n), n)
    ensures DistinctTokens(PathPlacements(gs, me, animation, o, n))
  {
    if n > 0 {
      var m := n - 1;
      var prev := PathPlacements(gs, me, animation, o, m);
      var last := PathPush(gs, me, animation, o, m);
      PathPlacementsSound(gs, me, animation, o, m);
      PathPushSound(gs, me, animation, o, m);
      AppendOne(gs, me, animation, prev, last, o, false, m);
      assert PathPlacements(gs, me, animation, o, m + 1) == prev + last;
    }
  }

  lemma IndicesBelowWeaken(ps: seq<Placement>, bound: int, bound': int)
    requires IndicesBelow(ps, bound) && bound <= bound'
    ensures IndicesBelow(ps, bound')
  {
  }

  /** Appending at most one sound push of a token above all earlier ones keeps
      a seat's pushes sound, bounded and free of repeats. */
  lemma AppendOne(gs: GameState, me: PlayerId, animation: Option<AnimationTask>,
                  a: seq<Placement>, b: seq<Placement>, o: nat, inYard: bool, t: int)
    requires PushesOk(gs, me, animation, a, o, o + 1, inYard) && PushesOk(gs, me, animation, b, o, o + 1, inYard)
    requires IndicesBelow(a, t) && DistinctTokens(a)
    requires |b| <= 1 && forall k :: 0 <= k < |b| ==> b[k].item.tokenIndex == t
    ensures PushesOk(gs, me, animation, a + b, o, o + 1, inYard)
    ensures IndicesBelow(a + b, t + 1) && DistinctTokens(a + b)
  {
    DistinctConcat(a, b);
    var ab := a + b;
    forall k | 0 <= k < |ab|
      ensures o <= ab[k].owner < o + 1 && PlacementOk(gs, me, animation, ab[k])
              && (inYard <==> gs.players[ab[k].owner].tokens[ab[k].item.tokenIndex] == 0)
              && ab[k].item.tokenIndex < t + 1
    {
      if k < |a| {
        assert ab[k] == a[k];
      } else {
        assert ab[k] == b[k - |a|];
      }
    }
  }

  /** Concatenating sound pushes of adjacent seat ranges. */
  lemma PushesOkConcat(gs: GameState, me: PlayerId, animation: Option<AnimationTask>,
                       a: seq<Placement>, b: seq<Placement>, lo: nat, mid: nat, hi: nat, inYard: bool)
    requires lo <= mid <= hi
    requires PushesOk(gs, me, animation, a, lo, mid, inYard) && PushesOk(gs, me, animation, b, mid, hi, inYard)
    requires DistinctTokens(a) && DistinctTokens(b)
    ensures PushesOk(gs, me, animation, a + b, lo, hi, inYard)
    ensures DistinctTokens(a + b)
  {
    DistinctConcat(a, b);
    var ab := a + b;
    forall k | 0 <= k < |ab|
      ensures lo <= ab[k].owner < hi && PlacementOk(gs, me, animation, ab[k])
              && (inYard <==> gs.players[ab[k].owner].tokens[ab[k].item.tokenIndex] == 0)
    {
      if k < |a| {
        assert ab[k] == a[k];
      } else {
        assert ab[k] == b[k - |a|];
      }
    }
  }

  lemma {:induction false} AllYardSound(gs: GameState, me: PlayerId, animation: Option<AnimationTask>, n: nat)
    requires n <= |gs.players|
    ensures PushesOk(gs, me, animation, AllYard(gs, me, animation, n), 0, n, true)
    ensures DistinctTokens(AllYard(gs, me, animation, n))
  {
    if n > 0 {
      var o := n - 1;
      var prev := AllYard(gs, me, animation, o);
      var last := YardPlacements(gs, me, animation, o, YardCount(gs, o));
      AllYardSound(gs, me, animation, o);
      YardPlacementsSound(gs, me, animation, o, YardCount(gs, o));
      PushesOkConcat(gs, me, animation, prev, last, 0, o, o + 1, true);
      assert AllYard(gs, me, animation, o + 1) == prev + last;
    }
  }

  lemma {:induction false} AllPathSound(gs: GameState, me: PlayerId, animation: Option<AnimationTask>, n: nat)
    requires n <= |gs.players|
    ensures PushesOk(gs, me, animation, AllPath(gs, me, animation, n), 0, n, false)
    ensures DistinctTokens(AllPath(gs, me, animation, n))
  {
    if n > 0 {
      var o := n - 1;
      var prev := AllPath(gs, me, animation, o);
      var last := PathPlacements(gs, me, animation, o, |gs.players[o].tokens|);
      AllPathSound(gs, me, animation, o);
      PathPlacementsSound(gs, me, animation, o, |gs.players[o].tokens|);
      PushesOkConcat(gs, me, animation, prev, last, 0, o, o + 1, false);
      assert AllPath(gs, me, animation, o + 1) == prev + last;
    }
  }

  /** Every push of the builder satisfies PlacementOk, and no token is pushed
      twice: the yard pass and the board pass never list the same token. */
  lemma PlacementsSound(gs: GameState, me: PlayerId, animation: Option<AnimationTask>)
    ensures forall k :: 0 <= k < |Placements(gs, me, animation)| ==>
              PlacementOk(gs, me, animation, Placements(gs, me, animation)[k])
    ensures DistinctTokens(Placements(gs, me, animation))
  {
    var y := AllYard(gs, me, animation, |gs.players|);
    var b := AllPath(gs, me, animation, |gs.players|);
    AllYardSound(gs, me, animation, |gs.players|);
    AllPathSound(gs, me, animation, |gs.players|);
    YardPathDisjoint(gs, me, animation, y, b, |gs.players|);
    DistinctConcat(y, b);
    YardPathOk(gs, me, animation, y, b, |gs.players|);
  }

  /** A yard push and a board push never list the same token. */
  lemma YardPathDisjoint(gs: GameState, me: PlayerId, animation: Option<AnimationTask>,
                         y: seq<Placement>, b: seq<Placement>, n: nat)
    requires PushesOk(gs, me, animation, y, 0, n, true) && PushesOk(gs, me, animation, b, 0, n, false)
    ensures forall k, k' :: 0 <= k < |y| && 0 <= k' < |b| ==>
              y[k].owner != b[k'].owner || y[k].item.tokenIndex != b[k'].item.tokenIndex
  {
    forall k, k' | 0 <= k < |y| && 0 <= k' < |b|
      ensures y[k].owner != b[k'].owner || y[k].item.tokenIndex != b[k'].item.tokenIndex
    {
      assert gs.players[y[k].owner].tokens[y[k].item.tokenIndex] == 0;
      assert gs.players[b[k'].owner].tokens[b[k'].item.tokenIndex] != 0;
    }
  }

  lemma YardPathOk(gs: GameState, me: PlayerId, animation: Option<AnimationTask>,
                   y: seq<Placement>, b: seq<Placement>, n: nat)
    requires PushesOk(gs, me, animation, y, 0, n, true) && PushesOk(gs, me, animation, b, 0, n, false)
    ensures forall k :: 0 <= k < |y + b| ==> PlacementOk(gs, me, animation, (y + b)[k])
  {
    var all := y + b;
    forall k | 0 <= k < |all| ensures PlacementOk(gs, me, animation, all[k]) {
      if k < |y| {
        assert all[k] == y[k];
      } else {
        assert all[k] == b[k - |y|];
      }
    }
  }

  /** The cell where the builder draws a token that is not in flight. */
  function HomeCell(p: Player, t: nat): Cell
    requires t < |p.tokens|
  {
    if p.tokens[t] == 0 then YardSlot(p.color, |YardIndices(p.tokens, t)|) else MapPathToGrid(p.color, p.tokens[t])
  }

  /** Some push in ps lists token t of seat o. */
  predicate Lists(ps: seq<Placement>, o: nat, t: int) {
    exists k :: 0 <= k < |ps| && ps[k].owner == o && ps[k].item.tokenIndex == t
  }

  lemma ListsConcat(a: seq<Placement>, b: seq<Placement>, o: nat, t: int)
    requires Lists(a, o, t) || Lists(b, o, t)
    ensures Lists(a + b, o, t)
  {
    if Lists(a, o, t) {
      var k :| 0 <= k < |a| && a[k].owner == o && a[k].item.tokenIndex == t;
      assert (a + b)[k] == a[k];
    } else {
      var k :| 0 <= k < |b| && b[k].owner == o && b[k].item.tokenIndex == t;
      assert (a + b)[|a| + k] == b[k];
    }
  }

  lemma {:induction false} YardComplete(gs: GameState, me: PlayerId, animation: Option<AnimationTask>,
                                        o: nat, n: nat, j: nat)
    requires o < |gs.players| && j < n <= YardCount(gs, o)
    requires !IsTokenAnimating(animation, gs.players[o].color,
                               YardIndices(gs.players[o].tokens, |gs.players[o].tokens|)[j])
    ensures Lists(YardPlacements(gs, me, animation, o, n), o,
                  YardIndices(gs.players[o].tokens, |gs.players[o].tokens|)[j])
  {
    var yard := YardIndices(gs.players[o].tokens, |gs.players[o].tokens|);
    var prev := YardPlacements(gs, me, animation, o, n - 1);
    var last := YardPush(gs, me, animation, o, n - 1);
    assert YardPlacements(gs, me, animation, o, n) == prev + last;
    if j < n - 1 {
      YardComplete(gs, me, animation, o, n - 1, j);
    } else {
      assert last[0].owner == o && last[0].item.tokenIndex == yard[j];
    }
    ListsConcat(prev, last, o, yard[j]);
  }

  lemma {:induction false} PathComplete(gs: GameState, me: PlayerId, animation: Option<AnimationTask>,
                                        o: nat, n: nat, t: nat)
    requires o < |gs.players| && t < n <= |gs.players[o].tokens|
    requires gs.players[o].tokens[t] > 0 && !IsTokenAnimating(animation, gs.players[o].color, t)
    ensures Lists(PathPlacements(gs, me, animation, o, n), o, t)
  {
    var prev := PathPlacements(gs, me, animation, o, n - 1);
    var last := PathPush(gs, me, animation, o, n - 1);
    assert PathPlacements(gs, me, animation, o, n) == prev + last;
    if t < n - 1 {
      PathComplete(gs, me, animation, o, n - 1, t);
    } else {
      assert last[0].owner == o && last[0].item.tokenIndex == t;
    }
    ListsConcat(prev, last, o, t);
  }

  /** The yard pass of seat n extends AllYard by that seat's placements. */
  lemma AllYardStep(gs: GameState, me: PlayerId, animation: Option<AnimationTask>, n: nat)
    requires n < |gs.players|
    ensures AllYard(gs, me, animation, n + 1)
            == AllYard(gs, me, animation, n) + YardPlacements(gs, me, animation, n, YardCount(gs, n))
  {
  }

  /** A yard token of seat o that is not in flight is listed by that seat's yard pass. */
  lemma SeatYardComplete(gs: GameState, me: PlayerId, animation: Option<AnimationTask>, o: nat, t: nat)
    requires o < |gs.players| && t < |gs.players[o].tokens|
    requires gs.players[o].tokens[t] == 0 && !IsTokenAnimating(animation, gs.players[o].color, t)
    ensures Lists(YardPlacements(gs, me, animation, o, YardCount(gs, o)), o, t)
  {
    var tokens := gs.players[o].tokens;
    var yard := YardIndices(tokens, |tokens|);
    YardIndicesExact(tokens, |tokens|);
    assert t in yard;
    var j :| 0 <= j < |yard| && yard[j] == t;
    YardComplete(gs, me, animation, o, |yard|, j);
  }

  lemma {:induction false} AllYardComplete(gs: GameState, me: PlayerId, animation: Option<AnimationTask>,
                                           n: nat, o: nat, t: nat)
    requires o < n <= |gs.players| && t < |gs.players[o].tokens|
    requires gs.players[o].tokens[t] == 0 && !IsTokenAnimating(animation, gs.players[o].color, t)
    ensures Lists(AllYard(gs, me, animation, n), o, t)
  {
    var m := n - 1;
    assert m + 1 == n;
    AllYardStep(gs, me, animation, m);
    if o < m {
      AllYardComplete(gs, me, animation, m, o, t);
    } else {
      assert o == m;
      SeatYardComplete(gs, me, animation, m, t);
    }
    ListsConcat(AllYard(gs, me, animation, m), YardPlacements(gs, me, animation, m, YardCount(gs, m)), o, t);
  }

  lemma {:induction false} AllPathComplete(gs: GameState, me: PlayerId, animation: Option<AnimationTask>,
                                           n: nat, o: nat, t: nat)
    requires o < n <= |gs.players| && t < |gs.players[o].tokens|
    requires gs.players[o].tokens[t] > 0 && !IsTokenAnimating(animation, gs.players[o].color, t)
    ensures Lists(AllPath(gs, me, animation, n), o, t)
  {
    var prev := AllPath(gs, me, animation, n - 1);
    var last := PathPlacements(gs, me, animation, n - 1, |gs.players[n - 1].tokens|);
    assert AllPath(gs, me, animation, n) == prev + last;
    if o < n - 1 {
      AllPathComplete(gs, me, animation, n - 1, o, t);
    } else {
      PathComplete(gs, me, animation, o, |gs.players[o].tokens|, t);
    }
    ListsConcat(prev, last, o, t);
  }

  /** Every token that is in the yard or on the board and is not in flight is
      listed, with its highlight, on the square of its yard slot or position. */
  lemma BoardListsEveryToken(gs: GameState, me: PlayerId, animation: Option<AnimationTask>, o: nat, t: nat)
    requires o < |gs.players| && t < |gs.players[o].tokens| && gs.players[o].tokens[t] >= 0
    requires !IsTokenAnimating(animation, gs.players[o].color, t)
    ensures var p := gs.players[o];
            var cell := HomeCell(p, t);
            cell in Board(gs, me, animation)
            && TokenView(p.color, t, MovableFlag(gs, me, p, p.tokens[t])) in Board(gs, me, animation)[cell]
  {
    var p := gs.players[o];
    var y := AllYard(gs, me, animation, |gs.players|);
    var b := AllPath(gs, me, animation, |gs.players|);
    var ps := Placements(gs, me, animation);
    if p.tokens[t] == 0 {
      AllYardComplete(gs, me, animation, |gs.players|, o, t);
    } else {
      AllPathComplete(gs, me, animation, |gs.players|, o, t);
    }
    ListsConcat(y, b, o, t);
    var k :| 0 <= k < |ps| && ps[k].owner == o && ps[k].item.tokenIndex == t;
    PlacementsSound(gs, me, animation);
    assert PlacementOk(gs, me, animation, ps[k]);
    GroupMembers(ps, HomeCell(p, t), ps[k].item);
  }

  /** Everything a square lists is a token of some seat that is not in flight,
      drawn on its own yard slot or position cell, highlighted by the rule. */
  lemma BoardListsOnlyTokens(gs: GameState, me: PlayerId, animation: Option<AnimationTask>, cell: Cell, v: TokenView)
    requires cell in Board(gs, me, animation) && v in Board(gs, me, animation)[cell]
    ensures exists o :: 0 <= o < |gs.players| && gs.players[o].color == v.tokenColor
              && 0 <= v.tokenIndex < |gs.players[o].tokens| && gs.players[o].tokens[v.tokenIndex] >= 0
              && !IsTokenAnimating(animation, v.tokenColor, v.tokenIndex)
              && cell == HomeCell(gs.players[o], v.tokenIndex)
              && v.isMovable == MovableFlag(gs, me, gs.players[o], gs.players[o].tokens[v.tokenIndex])
  {
    var ps := Placements(gs, me, animation);
    GroupMembers(ps, cell, v);
    var k :| 0 <= k < |ps| && ps[k].key == cell && ps[k].item == v;
    PlacementsSound(gs, me, animation);
    assert PlacementOk(gs, me, animation, ps[k]);
  }

  /** A highlighted token is always one of the local player's, on the local
      player's turn in the move phase, with a move the predictor accepts. */
  lemma HighlightOnlyForLocalTurn(gs: GameState, me: PlayerId, animation: Option<AnimationTask>, cell: Cell, v: TokenView)
    requires cell in Board(gs, me, animation) && v in Board(gs, me, animation)[cell] && v.isMovable
    ensures IsCurrentPlayer(gs, me) && gs.status == WaitingForMove
    ensures exists o :: 0 <= o < |gs.players| && gs.players[o].id == me && gs.players[o].color == v.tokenColor
              && 0 <= v.tokenIndex < |gs.players[o].tokens|
              && IsMoveLegal(gs.players[o].tokens[v.tokenIndex], gs.diceValue)
  {
    BoardListsOnlyTokens(gs, me, animation, cell, v);
  }

  /** The token in flight is listed on no square: the animation layer alone draws it. */
  lemma AnimatingTokenHidden(gs: GameState, me: PlayerId, animation: Option<AnimationTask>, cell: Cell, v: TokenView)
    requires animation.Some? && animation.value.isRunning
    requires cell in Board(gs, me, animation) && v in Board(gs, me, animation)[cell]
    ensures v.tokenColor != animation.value.tokenColor || v.tokenIndex != animation.value.tokenIndex
  {
    BoardListsOnlyTokens(gs, me, animation, cell, v);
  }

  /** `player.tokens.map(...).filter(t => t.pos === 0)`, as the list of indices. */
  method CollectYardTokens(tokens: seq<int>) returns (yardTokens: seq<nat>)
    ensures yardTokens == YardIndices(tokens, |tokens|)
  {
    yardTokens := [];
    var i := 0;
    while i < |tokens|
      invariant 0 <= i <= |tokens|
      invariant yardTokens == YardIndices(tokens, i)
    {
      if tokens[i] == 0 {
        yardTokens := yardTokens + [i];
      }
      i := i + 1;
    }
  }

  /** What the yard pass has pushed once it has done the seats below o and
      the first idx yard tokens of seat o. */
  ghost function YardPushed(gs: GameState, me: PlayerId, animation: Option<AnimationTask>, o: nat, idx: nat)
    : seq<Placement>
    requires o < |gs.players| && idx <= YardCount(gs, o)
  {
    if idx == 0 then AllYard(gs, me, animation, o)
    else YardPushed(gs, me, animation, o, idx - 1) + YardPush(gs, me, animation, o, idx - 1)
  }

  lemma {:induction false} YardPushedIsPrefix(gs: GameState, me: PlayerId, animation: Option<AnimationTask>,
                                              o: nat, idx: nat)
    requires o < |gs.players| && idx <= YardCount(gs, o)
    ensures YardPushed(gs, me, animation, o, idx) == AllYard(gs, me, animation, o) + YardPlacements(gs, me, animation, o, idx)
  {
    if idx > 0 {
      var m := idx - 1;
      YardPushedIsPrefix(gs, me, animation, o, m);
      assert m + 1 == idx;
      assert YardPushed(gs, me, animation, o, m + 1)
             == YardPushed(gs, me, animation, o, m) + YardPush(gs, me, animation, o, m);
      assert YardPlacements(gs, me, animation, o, m + 1)
             == YardPlacements(gs, me, animation, o, m) + YardPush(gs, me, animation, o, m);
    }
  }

  /** One turn of the yard pass's inner loop: the n-th yard token t of seat o
      is pushed onto its rank's slot unless it is in flight. */
  lemma YardPushStep(gs: GameState, me: PlayerId, animation: Option<AnimationTask>, o: nat, n: nat, t: nat)
    requires o < |gs.players| && n < YardCount(gs, o)
    requires t == YardIndices(gs.players[o].tokens, |gs.players[o].tokens|)[n]
    ensures var p := gs.players[o];
            var done := YardPushed(gs, me, animation, o, n);
            var next := YardPushed(gs, me, animation, o, n + 1);
            var e := Entry(YardSlot(p.color, n), TokenView(p.color, t, MovableFlag(gs, me, p, 0)), o);
            (IsTokenAnimating(animation, p.color, t) ==> next == done)
            && (!IsTokenAnimating(animation, p.color, t) ==> Group(next) == Push(Group(done), e))
  {
    var p := gs.players[o];
    var done := YardPushed(gs, me, animation, o, n);
    assert YardPushed(gs, me, animation, o, n + 1) == done + YardPush(gs, me, animation, o, n);
    if !IsTokenAnimating(animation, p.color, t) {
      GroupSnoc(done, Entry(YardSlot(p.color, n), TokenView(p.color, t, MovableFlag(gs, me, p, 0)), o));
    }
  }

  /** The yard pass for seat o: distributes its yard tokens over its four slots. */
  method PushYardTokens(gs: GameState, me: PlayerId, animation: Option<AnimationTask>, o: nat,
                        squares: map<Cell, seq<TokenView>>)
    returns (squares': map<Cell, seq<TokenView>>)
    requires o < |gs.players| && squares == Group(AllYard(gs, me, animation, o))
    ensures squares' == Group(AllYard(gs, me, animation, o + 1))
  {
    var player := gs.players[o];
    var yardTokens := CollectYardTokens(player.tokens);
    squares' := squares;
    var idx := 0;
    while idx < |yardTokens|
      invariant 0 <= idx <= |yardTokens|
      invariant squares' == Group(YardPushed(gs, me, animation, o, idx))
    {
      var cell := YardSlot(player.color, idx);
      var t := yardTokens[idx];
      YardPushStep(gs, me, animation, o, idx, t);
      if !IsTokenAnimating(animation, player.color, t) {
        squares' := Push(squares', Entry(cell, TokenView(player.color, t, MovableFlag(gs, me, player, 0)), o));
      }
      idx := idx + 1;
    }
    YardPushedIsPrefix(gs, me, animation, o, idx);
    AllYardStep(gs, me, animation, o);
  }

  /** What has been pushed once the yard pass and the board pass's first o
      seats have run. */
  ghost function Pushed(gs: GameState, me: PlayerId, animation: Option<AnimationTask>, o: nat): seq<Placement>
    requires o <= |gs.players|
  {
    if o == 0 then AllYard(gs, me, animation, |gs.players|)
    else Pushed(gs, me, animation, o - 1) + PathPlacements(gs, me, animation, o - 1, |gs.players[o - 1].tokens|)
  }

  lemma PushedStep(gs: GameState, me: PlayerId, animation: Option<AnimationTask>, o: nat)
    requires o < |gs.players|
    ensures Pushed(gs, me, animation, o + 1)
            == Pushed(gs, me, animation, o) + PathPlacements(gs, me, animation, o, |gs.players[o].tokens|)
  {
  }

  lemma {:induction false} PushedIsPrefix(gs: GameState, me: PlayerId, animation: Option<AnimationTask>, o: nat)
    requires o <= |gs.players|
    ensures Pushed(gs, me, animation, o) == AllYard(gs, me, animation, |gs.players|) + AllPath(gs, me, animation, o)
  {
    if o > 0 {
      var m := o - 1;
      PushedIsPrefix(gs, me, animation, m);
      assert m + 1 == o;
      PushedStep(gs, me, animation, m);
      assert AllPath(gs, me, animation, m + 1)
             == AllPath(gs, me, animation, m) + PathPlacements(gs, me, animation, m, |gs.players[m].tokens|);
    }
  }

  /** What the board pass has pushed once it has done the seats below o and
      the tokens of seat o below idx. */
  ghost function PathPushed(gs: GameState, me: PlayerId, animation: Option<AnimationTask>, o: nat, idx: nat)
    : seq<Placement>
    requires o < |gs.players| && idx <= |gs.players[o].tokens|
  {
    if idx == 0 then Pushed(gs, me, animation, o)
    else PathPushed(gs, me, animation, o, idx - 1) + PathPush(gs, me, animation, o, idx - 1)
  }

  lemma {:induction false} PathPushedIsPrefix(gs: GameState, me: PlayerId, animation: Option<AnimationTask>,
                                              o: nat, idx: nat)
    requires o < |gs.players| && idx <= |gs.players[o].tokens|
    ensures PathPushed(gs, me, animation, o, idx) == Pushed(gs, me, animation, o) + PathPlacements(gs, me, animation, o, idx)
  {
    if idx > 0 {
      var m := idx - 1;
      PathPushedIsPrefix(gs, me, animation, o, m);
      assert m + 1 == idx;
      assert PathPushed(gs, me, animation, o, m + 1)
             == PathPushed(gs, me, animation, o, m) + PathPush(gs, me, animation, o, m);
      assert PathPlacements(gs, me, animation, o, m + 1)
             == PathPlacements(gs, me, animation, o, m) + PathPush(gs, me, animation, o, m);
    }
  }

  /** One turn of the board pass's inner loop: token n of seat o is pushed onto
      its position's cell when it is past the yard and not in flight. */
  lemma PathPushStep(gs: GameState, me: PlayerId, animation: Option<AnimationTask>, o: nat, n: nat)
    requires o < |gs.players| && n < |gs.players[o].tokens|
    ensures var p := gs.players[o];
            var pos := p.tokens[n];
            var done := PathPushed(gs, me, animation, o, n);
            var next := PathPushed(gs, me, animation, o, n + 1);
            var e := Entry(MapPathToGrid(p.color, pos), TokenView(p.color, n, MovableFlag(gs, me, p, pos)), o);
            (pos > 0 && !IsTokenAnimating(animation, p.color, n) ==> Group(next) == Push(Group(done), e))
            && (!(pos > 0 && !IsTokenAnimating(animation, p.color, n)) ==> next == done)
  {
    var p := gs.players[o];
    var pos := p.tokens[n];
    var done := PathPushed(gs, me, animation, o, n);
    assert PathPushed(gs, me, animation, o, n + 1) == done + PathPush(gs, me, animation, o, n);
    if pos > 0 && !IsTokenAnimating(animation, p.color, n) {
      GroupSnoc(done, Entry(MapPathToGrid(p.color, pos), TokenView(p.color, n, MovableFlag(gs, me, p, pos)), o));
    }
  }

  /** The board pass for seat o: every token past the yard goes to its position's cell. */
  method PushPathTokens(gs: GameState, me: PlayerId, animation: Option<AnimationTask>, o: nat,
                        squares: map<Cell, seq<TokenView>>)
    returns (squares': map<Cell, seq<TokenView>>)
    requires o < |gs.players| && squares == Group(Pushed(gs, me, animation, o))
    ensures squares' == Group(Pushed(gs, me, animation, o + 1))
  {
    var player := gs.players[o];
    squares' := squares;
    var tokenIndex := 0;
    while tokenIndex < |player.tokens|
      invariant 0 <= tokenIndex <= |player.tokens|
      invariant squares' == Group(PathPushed(gs, me, animation, o, tokenIndex))
    {
      var pos := player.tokens[tokenIndex];
      PathPushStep(gs, me, animation, o, tokenIndex);
      if pos > 0 && !IsTokenAnimating(animation, player.color, tokenIndex) {
        var cell := MapPathToGrid(player.color, pos);
        squares' := Push(squares', Entry(cell, TokenView(player.color, tokenIndex, MovableFlag(gs, me, player, pos)), o));
      }
      tokenIndex := tokenIndex + 1;
    }
    PathPushedIsPrefix(gs, me, animation, o, tokenIndex);
    PushedStep(gs, me, animation, o);
  }

  /** The first pass of the builder: every seat's yard. */
  method YardPass(gs: GameState, me: PlayerId, animation: Option<AnimationTask>)
    returns (squares: map<Cell, seq<TokenView>>)
    ensures squares == Group(AllYard(gs, me, animation, |gs.players|))
  {
    squares := map[];
    var o := 0;
    while o < |gs.players|
      invariant 0 <= o <= |gs.players|
      invariant squares == Group(AllYard(gs, me, animation, o))
    {
      squares := PushYardTokens(gs, me, animation, o, squares);
      o := o + 1;
    }
  }

  /** The second pass of the builder: every seat's tokens past the yard, on
      top of the squares the first pass built. */
  method BoardPass(gs: GameState, me: PlayerId, animation: Option<AnimationTask>,
                   squares: map<Cell, seq<TokenView>>)
    returns (squares': map<Cell, seq<TokenView>>)
    requires squares == Group(AllYard(gs, me, animation, |gs.players|))
    ensures squares' == Board(gs, me, animation)
  {
    squares' := squares;
    var o := 0;
    while o < |gs.players|
      invariant 0 <= o <= |gs.players|
      invariant squares' == Group(Pushed(gs, me, animation, o))
    {
      squares' := PushPathTokens(gs, me, animation, o, squares');
      o := o + 1;
    }
    PushedIsPrefix(gs, me, animation, |gs.players|);
  }

  /** The memoised builder: a yard pass then a board pass over every seat. */
  method BuildBoardState(gs: GameState, me: PlayerId, animation: Option<AnimationTask>)
    returns (squares: map<Cell, seq<TokenView>>)
    ensures squares == Board(gs, me, animation)
  {
    squares := YardPass(gs, me, animation);
    squares := BoardPass(gs, me, animation, squares);
  }
}
