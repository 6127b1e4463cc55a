/** The fixed five-point board of the M-pawn game: four corners and the
    shared center, joined by the adjacency table pawns move along. */
module Topology {

  /** The five points, named after their board ids tl, tr, bl, br and center. */
  datatype Pos = TL | TR | BL | BR | Center

  /** The points in the key order of the board object (tl, tr, bl, br,
      center). Every scan over the board follows this order. */
  const Points: seq<Pos> := [TL, TR, BL, BR, Center]

  /** Where a point stands in the key order. */
  function KeyIndex(p: Pos): (i: nat)
    ensures i < |Points| && Points[i] == p
  {
    match p
    case TL => 0
    case TR => 1
    case BL => 2
    case BR => 3
    case Center => 4
  }

  /** The adjacency table: the points reachable from p in one move, in the
      order the table lists them. */
  function Neighbours(p: Pos): seq<Pos>
  {
    match p
    case TL => [Center, BL]
    case TR => [Center, BR]
    case BL => [Center, TL, BR]
    case BR => [Center, TR, BL]
    case Center => [TL, TR, BL, BR]
  }

  predicate Adjacent(p: Pos, q: Pos)
  {
    q in Neighbours(p)
  }

  /** The three corner-to-corner edges: the two vertical sides and the bottom. */
  predicate CornerEdge(p: Pos, q: Pos)
  {
    (p == TL && q == BL) || (p == TR && q == BR) || (p == BL && q == BR)
  }

  /** The table is symmetric: every listed step can be taken back. */
  lemma AdjacencySymmetric(p: Pos, q: Pos)
    ensures Adjacent(p, q) <==> Adjacent(q, p)
  {
  }

  /** No point is its own neighbour, so a move always changes two points. */
  lemma AdjacencyIrreflexive(p: Pos)
    ensures !Adjacent(p, p)
  {
  }

  /** The whole table in one statement: the center reaches every corner, and
      the only corner-to-corner steps are tl-bl, tr-br and bl-br. In
      particular tl and tr are not adjacent. */
  lemma AdjacencyShape(p: Pos, q: Pos)
    ensures Adjacent(p, q) <==>
      (p == Center && q != Center) || (q == Center && p != Center) ||
      CornerEdge(p, q) || CornerEdge(q, p)
    ensures !Adjacent(TL, TR) && !Adjacent(TR, TL)
  {
  }
}
