/** Whole games: a session driven by a sequence of events from the opening,
    and the facts that hold in every session such a run reaches. */
module Play {
  import opened Optional
  import opened Topology
  import opened Boards
  import opened Rules
  import opened Enumeration
  import opened Game

  /** What can happen to a session: a toss with the side the draw picked, a
      click on a point, the program's deferred move with its random index,
      and the reset button. */
  datatype Event = TossEvent(coin: Colour) | ClickEvent(point: Pos) | AiEvent(pick: nat) | ResetEvent

  /** The program's move is pending: one-player mode, green to move, the
      game running. This is when the toss and a human move schedule it. */
  predicate AiDue(s: Session)
  {
    s.mode == OnePlayer && s.turn == Some(Green) && !s.gameOver
  }

  /** One event. The program moves only when its move is due; the random
      index is read modulo the number of moves, so every index below that
      number can occur. */
  function Step(s: Session, e: Event): Session
  {
    match e
    case TossEvent(coin) => Toss(s, coin).session
    case ClickEvent(p) => Click(s, p).session
    case AiEvent(k) =>
      if AiDue(s) then
        var n := |Enumerate(s.board, Green)|;
        AiMove(s, if n == 0 then 0 else k % n).session
      else s
    case ResetEvent => InitBoard(s.mode)
  }

  function Run(s: Session, events: seq<Event>): Session
    decreases |events|
  {
    if events == [] then s else Run(Step(s, events[0]), events[1..])
  }

  /** What every reachable session satisfies. */
  ghost predicate Inv(s: Session)
  {
    // two red pawns, two green pawns, one empty point
    && WellFormed(s.board)
    // before the toss nothing is selected and the game is not over
    && (s.turn.None? ==> s.selected.None? && !s.gameOver)
    // the selected point holds a pawn of the side to move
    && (s.selected.Some? ==> s.turn.Some? && s.board.At(s.selected.value) == Pawn(s.turn.value))
    // the game is over exactly when a side wins, and the winner is the side
    // whose turn it was
    && (s.gameOver ==> s.turn.Some? && Wins(s.board, s.turn.value))
    && (!s.gameOver ==> !Wins(s.board, Red) && !Wins(s.board, Green))
    // nothing is selected while the program is to move
    && (s.mode == OnePlayer && s.turn == Some(Green) ==> s.selected.None?)
  }

  lemma InitBoardInv(mode: Mode)
    ensures Inv(InitBoard(mode))
  {
  }

  lemma TossPreservesInv(s: Session, coin: Colour)
    requires Inv(s)
    ensures Inv(Toss(s, coin).session)
  {
  }

  lemma ClickPreservesInv(s: Session, id: Pos)
    requires Inv(s)
    ensures Inv(Click(s, id).session)
  {
    var r := Click(s, id);
    if r.outcome.IsMove() {
      var m := r.outcome.move;
      assert Legal(s.board, s.turn.value, m);
      MovePreservesWellFormed(s.board, s.turn.value, m);
      MoveNeverWinsForOpponent(s.board, s.turn.value, m);
    }
  }

  lemma AiPreservesInv(s: Session, pick: nat)
    requires Inv(s) && AiDue(s)
    requires Enumerate(s.board, Green) == [] || pick < |Enumerate(s.board, Green)|
    ensures Inv(AiMove(s, pick).session)
  {
    var r := AiMove(s, pick);
    if r.played.Some? {
      MovePreservesWellFormed(s.board, Green, r.played.value);
      MoveNeverWinsForOpponent(s.board, Green, r.played.value);
    }
  }

  lemma StepPreservesInv(s: Session, e: Event)
    requires Inv(s)
    ensures Inv(Step(s, e))
  {
    match e
    case TossEvent(coin) => TossPreservesInv(s, coin);
    case ClickEvent(p) => ClickPreservesInv(s, p);
    case AiEvent(k) =>
      if AiDue(s) {
        var n := |Enumerate(s.board, Green)|;
        AiPreservesInv(s, if n == 0 then 0 else k % n);
      }
    case ResetEvent => InitBoardInv(s.mode);
  }

  lemma {:induction false} RunPreservesInv(s: Session, events: seq<Event>)
    requires Inv(s)
    ensures Inv(Run(s, events))
    decreases |events|
  {
    if events != [] {
      StepPreservesInv(s, events[0]);
      RunPreservesInv(Step(s, events[0]), events[1..]);
    }
  }

  /** Every session reached from a fresh board keeps two pawns per side and
      one empty point, keeps the selection on an own pawn, and is over
      exactly when the side whose turn it is has won. */
  lemma Reachable(mode: Mode, events: seq<Event>)
    ensures Inv(Run(InitBoard(mode), events))
  {
    InitBoardInv(mode);
    RunPreservesInv(InitBoard(mode), events);
  }

  /** In a running game the side to move always has a legal move: a side can
      only be stuck once its opponent has already won. */
  lemma ReachableNeverStuck(mode: Mode, events: seq<Event>)
    ensures var s := Run(InitBoard(mode), events);
      !s.gameOver && s.turn.Some? ==> Enumerate(s.board, s.turn.value) != []
  {
    var s := Run(InitBoard(mode), events);
    Reachable(mode, events);
    if !s.gameOver && s.turn.Some? && Enumerate(s.board, s.turn.value) == [] {
      EmptyIffNoLegalMove(s.board, s.turn.value);
      StuckMeansOpponentWins(s.board, s.turn.value);
    }
  }

  /** Only the toss decides the turn: no other event sets it. */
  lemma OnlyTossSetsTurn(s: Session, e: Event)
    requires s.turn.None? && !e.TossEvent?
    ensures Step(s, e).turn.None?
  {
  }

  /** The board after red's opening step tl to the center. */
  const AfterFirstMove: Board := Board(Empty, Pawn(Red), Pawn(Green), Pawn(Green), Pawn(Red))

  /** Red wins the toss, picks tl and steps to the center: no win, and the
      turn passes to green. */
  lemma FirstMoveScenario()
    ensures var s0 := Toss(InitBoard(TwoPlayer), Red).session;
      var c1 := Click(s0, TL);
      var c2 := Click(c1.session, Center);
      && c1.outcome == Selected(TL)
      && c2.outcome == Moved(Move(TL, Center))
      && c2.session == Session(AfterFirstMove, Some(Green), None, false, TwoPlayer)
  {
    var s0 := Toss(InitBoard(TwoPlayer), Red).session;
    assert s0 == Session(Opening, Some(Red), None, false, TwoPlayer);
    var s1 := Session(Opening, Some(Red), Some(TL), false, TwoPlayer);
    assert Click(s0, TL) == ClickResult(s1, Selected(TL), false);
    assert Accepting(s1) && MoveTarget(s1, Center);
    assert ApplyMove(Opening, Move(TL, Center), Red) == AfterFirstMove;
    assert CheckWin(AfterFirstMove) == None;
    var r := Click(s1, Center);
    assert r.outcome.Moved? && r.session.board == AfterFirstMove;
  }

  /** Green then picks bl and clicks br. br holds green's own pawn, so the
      click moves the selection there; it is not reported as an invalid
      move, and the board stays as it was. */
  lemma ReselectScenario()
    ensures var s2 := Session(AfterFirstMove, Some(Green), None, false, TwoPlayer);
      var c3 := Click(s2, BL);
      var c4 := Click(c3.session, BR);
      && c3.outcome == Selected(BL)
      && c4.outcome == Selected(BR)
      && c4.session == s2.(selected := Some(BR))
  {
    var s2 := Session(AfterFirstMove, Some(Green), None, false, TwoPlayer);
    assert Click(s2, BL).session == s2.(selected := Some(BL));
  }
}
