/** The opponent's move list: for each of its pawns in key order, each
    neighbour in adjacency order that is empty. */
module Enumeration {
  import opened Topology
  import opened Boards
  import opened Rules

  /** The steps from p to each empty point of dests, in the order of dests. */
  function MovesFrom(b: Board, p: Pos, dests: seq<Pos>): (r: seq<Move>)
    ensures forall m :: m in r ==> m.from == p && m.to in dests && b.At(m.to) == Empty
  {
    if dests == [] then []
    else (if b.At(dests[0]) == Empty then [Move(p, dests[0])] else []) + MovesFrom(b, p, dests[1..])
  }

  /** The steps of every pawn of `pawns`, pawn after pawn. */
  function MovesOf(b: Board, pawns: seq<Pos>): (r: seq<Move>)
    ensures forall m :: m in r ==> m.from in pawns && Adjacent(m.from, m.to) && b.At(m.to) == Empty
  {
    if pawns == [] then []
    else MovesFrom(b, pawns[0], Neighbours(pawns[0])) + MovesOf(b, pawns[1..])
  }

  /** Every move colour c can make on b, as the opponent's turn lists them. */
  function Enumerate(b: Board, c: Colour): (r: seq<Move>)
    ensures forall m :: m in r ==> Legal(b, c, m)
  {
    MovesOf(b, PlayerPositions(b, c))
  }

  /** The fourteen directed edges of the board, in key order of the source
      point and then in the order of its adjacency list. */
  const Candidates: seq<Move> := [
    Move(TL, Center), Move(TL, BL),
    Move(TR, Center), Move(TR, BR),
    Move(BL, Center), Move(BL, TL), Move(BL, BR),
    Move(BR, Center), Move(BR, TR), Move(BR, BL),
    Move(Center, TL), Move(Center, TR), Move(Center, BL), Move(Center, BR)
  ]

  /** The entries of ms that are legal for c, in the order of ms. */
  function KeepLegal(ms: seq<Move>, b: Board, c: Colour): (r: seq<Move>)
    ensures forall m :: m in r <==> m in ms && Legal(b, c, m)
  {
    if ms == [] then []
    else (if Legal(b, c, ms[0]) then [ms[0]] else []) + KeepLegal(ms[1..], b, c)
  }

  lemma {:induction false} KeepLegalAppend(x: seq<Move>, y: seq<Move>, b: Board, c: Colour)
    ensures KeepLegal(x + y, b, c) == KeepLegal(x, b, c) + KeepLegal(y, b, c)
  {
    if x != [] {
      assert (x + y)[0] == x[0];
      assert (x + y)[1..] == x[1..] + y;
      KeepLegalAppend(x[1..], y, b, c);
      var h := if Legal(b, c, x[0]) then [x[0]] else [];
      assert KeepLegal(x + y, b, c) == h + KeepLegal(x[1..] + y, b, c);
      assert KeepLegal(x, b, c) == h + KeepLegal(x[1..], b, c);
    } else {
      assert x + y == y;
    }
  }

  /** The step from p to every point of dests. */
  function Fan(p: Pos, dests: seq<Pos>): seq<Move>
  {
    if dests == [] then [] else [Move(p, dests[0])] + Fan(p, dests[1..])
  }

  /** The fans of every point of ps, one after the other. */
  function Fans(ps: seq<Pos>): seq<Move>
  {
    if ps == [] then [] else Fan(ps[0], Neighbours(ps[0])) + Fans(ps[1..])
  }

  /** A fan pairs the point with each destination, in the destinations' order. */
  lemma {:induction false} FanPointwise(p: Pos, ds: seq<Pos>)
    ensures Fan(p, ds) == seq(|ds|, i requires 0 <= i < |ds| => Move(p, ds[i]))
  {
    if ds != [] {
      FanPointwise(p, ds[1..]);
    }
  }

  lemma FansOfPoints()
    ensures Fans(Points) == Candidates
  {
    var ps := Points;
    assert ps[1..] == [TR, BL, BR, Center];
    assert ps[1..][1..] == [BL, BR, Center];
    assert ps[1..][1..][1..] == [BR, Center];
    assert ps[1..][1..][1..][1..] == [Center];
    FanPointwise(TL, Neighbours(TL));
    FanPointwise(TR, Neighbours(TR));
    FanPointwise(BL, Neighbours(BL));
    FanPointwise(BR, Neighbours(BR));
    FanPointwise(Center, Neighbours(Center));
    assert Fans([Center]) == Fan(Center, Neighbours(Center));
  }

  lemma {:induction false} KeepLegalFan(b: Board, c: Colour, p: Pos, dests: seq<Pos>)
    requires forall q :: q in dests ==> Adjacent(p, q)
    ensures KeepLegal(Fan(p, dests), b, c) == if b.At(p) == Pawn(c) then MovesFrom(b, p, dests) else []
  {
    if dests != [] {
      var f := Fan(p, dests);
      assert f[0] == Move(p, dests[0]) && f[1..] == Fan(p, dests[1..]);
      KeepLegalFan(b, c, p, dests[1..]);
    }
  }

  lemma {:induction false} MovesOfPawnsIn(b: Board, c: Colour, ps: seq<Pos>)
    ensures MovesOf(b, PawnsIn(b, c, ps)) == KeepLegal(Fans(ps), b, c)
  {
    if ps != [] {
      KeepLegalAppend(Fan(ps[0], Neighbours(ps[0])), Fans(ps[1..]), b, c);
      KeepLegalFan(b, c, ps[0], Neighbours(ps[0]));
      MovesOfPawnsIn(b, c, ps[1..]);
      if b.At(ps[0]) == Pawn(c) {
        var pawns := [ps[0]] + PawnsIn(b, c, ps[1..]);
        assert pawns[0] == ps[0] && pawns[1..] == PawnsIn(b, c, ps[1..]);
      }
    }
  }

  /** The enumeration is the legal subsequence of Candidates: it lists
      exactly the legal moves, each once, in key order of the source point
      and then in adjacency-list order. */
  lemma EnumerateIsOrderedFilter(b: Board, c: Colour)
    ensures Enumerate(b, c) == KeepLegal(Candidates, b, c)
  {
    MovesOfPawnsIn(b, c, Points);
    FansOfPoints();
  }

  lemma CandidatesAreEdges(m: Move)
    ensures m in Candidates <==> Adjacent(m.from, m.to)
  {
  }

  /** Sound and complete: a move is listed iff it is legal. */
  lemma EnumerateSoundComplete(b: Board, c: Colour, m: Move)
    ensures m in Enumerate(b, c) <==> Legal(b, c, m)
  {
    EnumerateIsOrderedFilter(b, c);
    CandidatesAreEdges(m);
  }

  /** At the opening red stands on tl and tr, green on bl and br. */
  lemma RedPositionsAtOpening()
    ensures PlayerPositions(Opening, Red) == [TL, TR]
  {
  }

  lemma GreenPositionsAtOpening()
    ensures PlayerPositions(Opening, Green) == [BL, BR]
  {
  }

  /** The move list of a colour whose pawns stand on p and q, in that order. */
  lemma EnumerateTwoPawns(b: Board, c: Colour, p: Pos, q: Pos)
    requires PlayerPositions(b, c) == [p, q]
    ensures Enumerate(b, c) == MovesFrom(b, p, Neighbours(p)) + MovesFrom(b, q, Neighbours(q))
  {
    assert Enumerate(b, c) == MovesOf(b, [p, q]);
    assert [p, q][1..] == [q] && [q][1..] == [];
    assert MovesOf(b, [q]) == MovesFrom(b, q, Neighbours(q)) + [];
  }

  /** The list is empty exactly when no legal move exists. */
  lemma EmptyIffNoLegalMove(b: Board, c: Colour)
    ensures Enumerate(b, c) == [] <==> forall m :: !Legal(b, c, m)
  {
    if Enumerate(b, c) != [] {
      assert Legal(b, c, Enumerate(b, c)[0]);
    } else {
      forall m ensures !Legal(b, c, m) {
        EnumerateSoundComplete(b, c, m);
      }
    }
  }

  /** From the opening each side may only step into the center: red from
      tl or tr, green from bl or br. */
  lemma OpeningRedMoves()
    ensures Enumerate(Opening, Red) == [Move(TL, Center), Move(TR, Center)]
  {
    RedPositionsAtOpening();
    EnumerateTwoPawns(Opening, Red, TL, TR);
    assert [Center, BL][1..] == [BL] && [Center, BR][1..] == [BR];
    assert MovesFrom(Opening, TL, [BL]) == [];
    assert MovesFrom(Opening, TR, [BR]) == [];
  }

  lemma OpeningGreenMoves()
    ensures Enumerate(Opening, Green) == [Move(BL, Center), Move(BR, Center)]
  {
    GreenPositionsAtOpening();
    EnumerateTwoPawns(Opening, Green, BL, BR);
    OpeningGreenFans();
  }

  /** The steps of green's pawns in the opening layout. */
  lemma OpeningGreenFans()
    ensures MovesFrom(Opening, BL, Neighbours(BL)) == [Move(BL, Center)]
    ensures MovesFrom(Opening, BR, Neighbours(BR)) == [Move(BR, Center)]
  {
    assert [Center, TL, BR][1..] == [TL, BR] && [TL, BR][1..] == [BR];
    assert [Center, TR, BL][1..] == [TR, BL] && [TR, BL][1..] == [BL];
    assert MovesFrom(Opening, BL, [BR]) == [];
    assert MovesFrom(Opening, BL, [TL, BR]) == [];
    assert MovesFrom(Opening, BR, [BL]) == [];
    assert MovesFrom(Opening, BR, [TR, BL]) == [];
  }

  /** On a two-two-one board a side is left without a move only when its
      opponent already satisfies the win check: the empty point must be tl
      or tr with both its neighbours held by the opponent, which is exactly
      the boxed layout. */
  lemma StuckMeansOpponentWins(b: Board, c: Colour)
    requires WellFormed(b) && forall m :: !Legal(b, c, m)
    ensures Wins(b, Opponent(c))
  {
    assert !Legal(b, c, Move(TL, Center));
    assert !Legal(b, c, Move(TL, BL));
    assert !Legal(b, c, Move(TR, Center));
    assert !Legal(b, c, Move(TR, BR));
    assert !Legal(b, c, Move(BL, Center));
    assert !Legal(b, c, Move(BL, TL));
    assert !Legal(b, c, Move(BL, BR));
    assert !Legal(b, c, Move(BR, Center));
    assert !Legal(b, c, Move(BR, TR));
    assert !Legal(b, c, Move(BR, BL));
    assert !Legal(b, c, Move(Center, TL));
    assert !Legal(b, c, Move(Center, TR));
    assert !Legal(b, c, Move(Center, BL));
    assert !Legal(b, c, Move(Center, BR));
  }
}
