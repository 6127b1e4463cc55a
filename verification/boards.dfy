/** The board state: which colour, if any, stands on each point, and the one
    way it changes, a pawn stepping to an adjacent empty point. */
module Boards {
  import opened Topology

  datatype Colour = Red | Green

  function Opponent(c: Colour): (o: Colour)
    ensures o != c
  {
    match c
    case Red => Green
    case Green => Red
  }

  /** The occupant of a point: a pawn of one colour, or nothing. */
  datatype Cell = Empty | Pawn(colour: Colour)

  /** A board names the occupant of every point: a total map from Pos to
      Cell, one field per point, read with At and written with Set. */
  datatype Board = Board(tl: Cell, tr: Cell, bl: Cell, br: Cell, center: Cell)
  {
    function At(p: Pos): Cell
    {
      match p
      case TL => tl
      case TR => tr
      case BL => bl
      case BR => br
      case Center => center
    }

    /** The board with point p holding v. */
    function Set(p: Pos, v: Cell): (r: Board)
      ensures r.At(p) == v
      ensures forall q :: q != p ==> r.At(q) == At(q)
    {
      match p
      case TL => this.(tl := v)
      case TR => this.(tr := v)
      case BL => this.(bl := v)
      case BR => this.(br := v)
      case Center => this.(center := v)
    }
  }

  /** The opening layout: red on tl and tr, green on bl and br, center empty. */
  const Opening: Board := Board(Pawn(Red), Pawn(Red), Pawn(Green), Pawn(Green), Empty)

  /** A step of one pawn, from one point to another. */
  datatype Move = Move(from: Pos, to: Pos)

  /** A step the mover of colour c may take: from its own pawn to an empty
      point the adjacency table lists. */
  predicate Legal(b: Board, c: Colour, m: Move)
  {
    b.At(m.from) == Pawn(c) && Adjacent(m.from, m.to) && b.At(m.to) == Empty
  }

  /** Carries out m for colour c: the destination takes the pawn first, then
      the source is cleared. Only the two named points change. */
  function ApplyMove(b: Board, m: Move, c: Colour): (r: Board)
    ensures r.At(m.from) == Empty
    ensures m.from != m.to ==> r.At(m.to) == Pawn(c)
    ensures forall p :: p != m.from && p != m.to ==> r.At(p) == b.At(p)
  {
    b.Set(m.to, Pawn(c)).Set(m.from, Empty)
  }

  function Ind(x: bool): nat
  {
    if x then 1 else 0
  }

  /** How many points hold v. */
  function Count(b: Board, v: Cell): nat
  {
    Ind(b.At(TL) == v) + Ind(b.At(TR) == v) + Ind(b.At(BL) == v) + Ind(b.At(BR) == v) + Ind(b.At(Center) == v)
  }

  /** Two pawns per side and one empty point. */
  predicate WellFormed(b: Board)
  {
    Count(b, Pawn(Red)) == 2 && Count(b, Pawn(Green)) == 2 && Count(b, Empty) == 1
  }

  lemma OpeningWellFormed()
    ensures WellFormed(Opening)
    ensures Opening.At(Center) == Empty
  {
  }

  /** A legal move relocates a pawn: no occupant is created or removed. */
  lemma MovePreservesCounts(b: Board, c: Colour, m: Move, v: Cell)
    requires Legal(b, c, m)
    ensures Count(ApplyMove(b, m, c), v) == Count(b, v)
  {
  }

  /** Consequently a legal move keeps the two-two-one layout. */
  lemma MovePreservesWellFormed(b: Board, c: Colour, m: Move)
    requires WellFormed(b) && Legal(b, c, m)
    ensures WellFormed(ApplyMove(b, m, c))
  {
    MovePreservesCounts(b, c, m, Pawn(Red));
    MovePreservesCounts(b, c, m, Pawn(Green));
    MovePreservesCounts(b, c, m, Empty);
  }
}
