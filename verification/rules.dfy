/** The win check: a side wins when it holds the center, the opponent is
    boxed on one vertical side, and the winner's other pawn sits on the
    bottom corner across from that side. */
module Rules {
  import opened Optional
  import opened Topology
  import opened Boards

  /** Strictly increasing in the board's key order. */
  ghost predicate Ascending(ps: seq<Pos>)
  {
    forall i, j :: 0 <= i < j < |ps| ==> KeyIndex(ps[i]) < KeyIndex(ps[j])
  }

  /** The tail of an ascending sequence is ascending and comes after its head. */
  lemma AscendingTail(ps: seq<Pos>)
    requires ps != []
    ensures Ascending(ps) ==> Ascending(ps[1..])
    ensures Ascending(ps) ==> forall q :: q in ps[1..] ==> KeyIndex(ps[0]) < KeyIndex(q)
  {
    if Ascending(ps) {
      forall i, j | 0 <= i < j < |ps[1..]|
        ensures KeyIndex(ps[1..][i]) < KeyIndex(ps[1..][j])
      {
        assert ps[1..][i] == ps[i + 1] && ps[1..][j] == ps[j + 1];
      }
      forall q | q in ps[1..] ensures KeyIndex(ps[0]) < KeyIndex(q) {
        var k :| 0 <= k < |ps[1..]| && ps[1..][k] == q;
        assert ps[k + 1] == q;
      }
    }
  }

  /** The points of ps holding a pawn of colour c, in the order of ps. */
  function PawnsIn(b: Board, c: Colour, ps: seq<Pos>): (r: seq<Pos>)
    ensures forall p :: p in r <==> p in ps && b.At(p) == Pawn(c)
    ensures Ascending(ps) ==> Ascending(r)
  {
    if ps == [] then []
    else
      AscendingTail(ps);
      var rest := PawnsIn(b, c, ps[1..]);
      if b.At(ps[0]) == Pawn(c) then [ps[0]] + rest else rest
  }

  /** The points holding colour c, scanned in key order. */
  function PlayerPositions(b: Board, c: Colour): (r: seq<Pos>)
    ensures forall p :: p in r <==> b.At(p) == Pawn(c)
    ensures Ascending(r)
  {
    assert Ascending(Points);
    PawnsIn(b, c, Points)
  }

  /** Whether colour c holds both points of a vertical side (tl and bl, or tr and br). */
  function BothOnSameVerticalSide(b: Board, c: Colour): (r: bool)
    ensures r <==> (b.At(TL) == Pawn(c) && b.At(BL) == Pawn(c)) ||
                   (b.At(TR) == Pawn(c) && b.At(BR) == Pawn(c))
  {
    var pos := PlayerPositions(b, c);
    if TL in pos && BL in pos then true
    else if TR in pos && BR in pos then true
    else false
  }

  /** The first entry of ps that is not the center, if any. */
  function FirstNonCenter(ps: seq<Pos>): (r: Option<Pos>)
    ensures r.None? <==> forall i :: 0 <= i < |ps| ==> ps[i] == Center
    ensures r.Some? ==> r.value != Center && exists i :: 0 <= i < |ps| && ps[i] == r.value &&
                                              forall j :: 0 <= j < i ==> ps[j] == Center
  {
    if ps == [] then None
    else if ps[0] != Center then Some(ps[0])
    else
      var r := FirstNonCenter(ps[1..]);
      if r.Some? then
        ghost var i :| 0 <= i < |ps[1..]| && ps[1..][i] == r.value &&
                       forall j :: 0 <= j < i ==> ps[1..][j] == Center;
        assert ps[i + 1] == r.value;
        r
      else r
  }

  /** The first corner, in key order, holding colour c. */
  function FirstOwnCorner(b: Board, c: Colour): Option<Pos>
  {
    if b.At(TL) == Pawn(c) then Some(TL)
    else if b.At(TR) == Pawn(c) then Some(TR)
    else if b.At(BL) == Pawn(c) then Some(BL)
    else if b.At(BR) == Pawn(c) then Some(BR)
    else None
  }

  /** The non-center pawn the win check looks at is the first corner of
      colour c in key order. */
  lemma OtherPawnIsFirstCorner(b: Board, c: Colour)
    ensures FirstNonCenter(PlayerPositions(b, c)) == FirstOwnCorner(b, c)
  {
    var ps := PlayerPositions(b, c);
    var r := FirstNonCenter(ps);
    var f := FirstOwnCorner(b, c);
    if f.Some? {
      var k :| 0 <= k < |ps| && ps[k] == f.value;
      assert r.Some?;
    }
  }

  /** One pass of the win check's loop for `player`, as the check evaluates
      it: the opponent on a vertical side, the player on the center, and the
      player's first non-center pawn on the corner across from that side. */
  predicate IsWin(b: Board, player: Colour)
  {
    var opponent := Opponent(player);
    var oppBothVertical := BothOnSameVerticalSide(b, opponent);
    var playerAtCenter := b.At(Center) == Pawn(player);
    var otherPawn := FirstNonCenter(PlayerPositions(b, player));
    oppBothVertical && playerAtCenter &&
      ((b.At(TL) == Pawn(opponent) && b.At(BL) == Pawn(opponent) && otherPawn == Some(BR)) ||
       (b.At(TR) == Pawn(opponent) && b.At(BR) == Pawn(opponent) && otherPawn == Some(BL)))
  }

  /** The win check for colour c on any board, stated cell by cell: c holds
      the center, the opponent holds one vertical side, and c holds the
      bottom corner across from it. The "first non-center pawn" test adds a
      condition on the corner before that one in key order: it must not hold
      a pawn of c. */
  predicate Wins(b: Board, c: Colour)
  {
    var o := Pawn(Opponent(c));
    b.At(Center) == Pawn(c) &&
    ((b.At(TL) == o && b.At(BL) == o && b.At(TR) != Pawn(c) && b.At(BR) == Pawn(c)) ||
     (b.At(TR) == o && b.At(BR) == o && b.At(TL) != Pawn(c) && b.At(BL) == Pawn(c)))
  }

  /** The check as the loop evaluates it agrees with the cell-by-cell
      statement on every board. */
  lemma WinCells(b: Board, c: Colour)
    ensures IsWin(b, c) <==> Wins(b, c)
  {
    OtherPawnIsFirstCorner(b, c);
  }

  /** The rule in the game's own words, for a board with two pawns per side:
      the winner holds the center, and either the opponent holds {tl, bl} and
      the winner's other pawn is on br, or the opponent holds {tr, br} and it
      is on bl. */
  ghost predicate Boxed(b: Board, c: Colour)
  {
    var o := Pawn(Opponent(c));
    b.At(Center) == Pawn(c) &&
    ((b.At(TL) == o && b.At(BL) == o && b.At(BR) == Pawn(c)) ||
     (b.At(TR) == o && b.At(BR) == o && b.At(BL) == Pawn(c)))
  }

  lemma WinRule(b: Board, c: Colour)
    requires WellFormed(b)
    ensures IsWin(b, c) <==> Boxed(b, c)
    ensures Wins(b, c) <==> Boxed(b, c)
  {
    WinCells(b, c);
  }

  /** Both sides can never satisfy the check at once: each needs the center. */
  lemma AtMostOneWinner(b: Board)
    ensures !(IsWin(b, Red) && IsWin(b, Green))
  {
    WinCells(b, Red);
    WinCells(b, Green);
  }

  /** The win check: red is tried before green and the first side that
      wins is reported. Since at most one side can win, the order never
      changes the answer. */
  function CheckWin(b: Board): (w: Option<Colour>)
    ensures forall c :: w == Some(c) <==> IsWin(b, c)
    ensures forall c :: w == Some(c) <==> Wins(b, c)
  {
    AtMostOneWinner(b);
    WinCells(b, Red);
    WinCells(b, Green);
    if IsWin(b, Red) then Some(Red)
    else if IsWin(b, Green) then Some(Green)
    else None
  }

  /** Boxed on the left with the winner's other pawn on br: a win. */
  lemma BoxedLeftWins()
    ensures CheckWin(Board(Pawn(Green), Empty, Pawn(Green), Pawn(Red), Pawn(Red))) == Some(Red)
  {
  }

  /** Boxed on the left with the other pawn on tr instead: not a win, and
      neither is the opening. */
  lemma NearWinsDoNotCount()
    ensures CheckWin(Board(Pawn(Green), Pawn(Red), Pawn(Green), Empty, Pawn(Red))) == None
    ensures CheckWin(Opening) == None
  {
  }

  /** A legal move on a two-two-one board never makes the opponent the
      winner: the boxed side would have to have stepped in from the empty
      corner, which touches neither point of its side. So the winner the
      check reports is always the side that just moved. */
  lemma MoveNeverWinsForOpponent(b: Board, c: Colour, m: Move)
    requires WellFormed(b) && Legal(b, c, m)
    ensures !Wins(ApplyMove(b, m, c), Opponent(c))
  {
    MovePreservesWellFormed(b, c, m);
    AdjacencyIrreflexive(m.from);
  }
}
