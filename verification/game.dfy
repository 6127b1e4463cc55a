/** The game session: the board, whose turn it is, the selected point, the
    game-over flag and the play mode, driven by point clicks, the toss, the
    reset and the opponent's move. */
module Game {
  import opened Optional
  import opened Topology
  import opened Boards
  import opened Rules
  import opened Enumeration

  /** "2p": two people share the board; "1p": green is played by the program. */
  datatype Mode = TwoPlayer | OnePlayer

  datatype Session = Session(board: Board, turn: Option<Colour>, selected: Option<Pos>,
                             gameOver: bool, mode: Mode)

  /** Starting over: the opening layout, no turn until the toss, nothing
      selected, the game running, the mode kept. */
  function InitBoard(mode: Mode): (s: Session)
    ensures s.board == Opening
    ensures WellFormed(s.board) && forall c :: !Wins(s.board, c)
    ensures s.turn == None && s.selected == None && !s.gameOver && s.mode == mode
  {
    OpeningWellFormed();
    Session(Opening, None, None, false, mode)
  }

  /** What the toss did, and whether it hands the first move to the program. */
  datatype TossResult = TossResult(session: Session, decided: bool, aiScheduled: bool)

  /** The toss; `coin` is the side the random draw picked. Once a turn is
      set a second toss is refused and changes nothing. */
  function Toss(s: Session, coin: Colour): (r: TossResult)
    ensures s.turn.Some? ==> r.session == s && !r.decided
    ensures s.turn.None? ==> r.decided && r.session == s.(turn := Some(coin))
    ensures r.aiScheduled <==> r.decided && s.mode == OnePlayer && coin == Green
  {
    if s.turn.Some? then TossResult(s, false, false)
    else TossResult(s.(turn := Some(coin)), true, s.mode == OnePlayer && coin == Green)
  }

  /** Clicks are taken only while a turn is set, the game runs, and it is
      not the program's turn in one-player mode. */
  predicate Accepting(s: Session)
  {
    !s.gameOver && s.turn.Some? && !(s.mode == OnePlayer && s.turn == Some(Green))
  }

  /** Whether clicking id moves the selected pawn there: a point is
      selected, id is empty and the adjacency table lists it from there. */
  predicate MoveTarget(s: Session, id: Pos)
  {
    s.selected.Some? && s.selected.value != id &&
    s.board.At(id) == Empty && Adjacent(s.selected.value, id)
  }

  datatype ClickOutcome =
    | Ignored
    | Selected(point: Pos)
    | Deselected
    | Invalid
    | Moved(move: Move)
    | Won(move: Move, winner: Colour)
  {
    predicate IsMove() { Moved? || Won? }
  }

  /** The session after a click, what the click did, and whether the
      program's move is now due. */
  datatype ClickResult = ClickResult(session: Session, outcome: ClickOutcome, aiScheduled: bool)

  /** A click on point id. */
  function Click(s: Session, id: Pos): (r: ClickResult)
    ensures r.session.mode == s.mode
    // ignored entirely outside the human side's turn
    ensures !Accepting(s) ==> r == ClickResult(s, Ignored, false)
    // the board changes only by a move, and a move happens exactly at a move target
    ensures r.outcome.IsMove() <==> Accepting(s) && MoveTarget(s, id)
    ensures r.outcome.IsMove() ==>
      r.outcome.move == Move(s.selected.value, id) && r.session.selected == None &&
      r.session.board == ApplyMove(s.board, r.outcome.move, s.turn.value)
    ensures !r.outcome.IsMove() ==>
      r.session.board == s.board && r.session.turn == s.turn && r.session.gameOver == s.gameOver
    // selection rules
    ensures r.outcome.Selected? <==>
      Accepting(s) && s.selected != Some(id) && s.board.At(id) == Pawn(s.turn.value)
    ensures r.outcome.Selected? ==> r.outcome.point == id && r.session == s.(selected := Some(id))
    ensures r.outcome.Deselected? <==> Accepting(s) && s.selected == Some(id)
    ensures r.outcome.Deselected? ==> r.session == s.(selected := None)
    ensures r.outcome.Invalid? <==>
      Accepting(s) && s.selected.Some? && s.selected != Some(id) && !MoveTarget(s, id) &&
      s.board.At(id) != Pawn(s.turn.value)
    ensures r.outcome.Invalid? || r.outcome.Ignored? ==> r.session == s
    // the turn after a move
    ensures r.outcome.Moved? ==>
      r.session.turn == Some(Opponent(s.turn.value)) && !r.session.gameOver &&
      CheckWin(r.session.board) == None
    ensures r.outcome.Won? ==>
      r.session.turn == s.turn && r.session.gameOver &&
      CheckWin(r.session.board) == Some(r.outcome.winner)
    ensures r.aiScheduled <==>
      r.outcome.Moved? && s.mode == OnePlayer && r.session.turn == Some(Green)
  {
    if s.gameOver || s.turn.None? then ClickResult(s, Ignored, false)
    else if s.mode == OnePlayer && s.turn == Some(Green) then ClickResult(s, Ignored, false)
    else
      var turn := s.turn.value;
      var occupant := s.board.At(id);
      if s.selected.None? then
        if occupant == Pawn(turn) then ClickResult(s.(selected := Some(id)), Selected(id), false)
        else ClickResult(s, Ignored, false)
      else if s.selected == Some(id) then
        ClickResult(s.(selected := None), Deselected, false)
      else if s.board.At(id) == Empty && id in Neighbours(s.selected.value) then
        var m := Move(s.selected.value, id);
        var board := ApplyMove(s.board, m, turn);
        var moved := s.(board := board, selected := None);
        match CheckWin(board)
        case Some(w) => ClickResult(moved.(gameOver := true), Won(m, w), false)
        case None =>
          var next := Opponent(turn);
          ClickResult(moved.(turn := Some(next)), Moved(m), s.mode == OnePlayer && next == Green)
      else if occupant == Pawn(turn) then
        ClickResult(s.(selected := Some(id)), Selected(id), false)
      else
        ClickResult(s, Invalid, false)
  }

  /** The session after the program's move and the move it played, if any. */
  datatype AiResult = AiResult(session: Session, played: Option<Move>)

  /** The program's move for green. `pick` stands for the random index into
      the move list: any index below its length, or any value when the list
      is empty. Green's pawns step whatever the turn says; the turn then
      goes to red unless the move wins. */
  function AiMove(s: Session, pick: nat): (r: AiResult)
    requires Enumerate(s.board, Green) == [] || pick < |Enumerate(s.board, Green)|
    ensures r.session.mode == s.mode && r.session.selected == s.selected
    ensures r.played.None? <==> s.gameOver || forall m :: !Legal(s.board, Green, m)
    ensures r.played.None? ==> r.session == s
    ensures r.played.Some? ==>
      pick < |Enumerate(s.board, Green)| && r.played.value == Enumerate(s.board, Green)[pick] &&
      Legal(s.board, Green, r.played.value) &&
      r.session.board == ApplyMove(s.board, r.played.value, Green)
    ensures r.played.Some? ==> (r.session.gameOver <==> CheckWin(r.session.board).Some?)
    ensures r.played.Some? && r.session.gameOver ==> r.session.turn == s.turn
    ensures r.played.Some? && !r.session.gameOver ==> r.session.turn == Some(Red)
  {
    EmptyIffNoLegalMove(s.board, Green);
    if s.gameOver then AiResult(s, None)
    else
      var moves := Enumerate(s.board, Green);
      if |moves| == 0 then AiResult(s, None)
      else
        var m := moves[pick];
        var board := ApplyMove(s.board, m, Green);
        if CheckWin(board).Some? then AiResult(s.(board := board, gameOver := true), Some(m))
        else AiResult(s.(board := board, turn := Some(Red)), Some(m))
  }

  /** Every legal green move is one the random pick can produce. */
  lemma AiCanPlayAnyLegalMove(s: Session, m: Move)
    requires !s.gameOver && Legal(s.board, Green, m)
    ensures exists pick: nat :: pick < |Enumerate(s.board, Green)| && AiMove(s, pick).played == Some(m)
  {
    EnumerateSoundComplete(s.board, Green, m);
    var moves := Enumerate(s.board, Green);
    var pick :| 0 <= pick < |moves| && moves[pick] == m;
    assert AiMove(s, pick).played == Some(m);
  }
}
