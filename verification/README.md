# M-pawn rules engine in Dafny

A model of the rules engine of the M-pawn game: two pawns per side on a
five-point board (four corners tl, tr, bl, br and a shared center), moved
one step at a time along a fixed adjacency table. A side wins when it
holds the center, the opponent is boxed on one vertical side (tl and bl,
or tr and br), and the winner's other pawn sits on the bottom corner across
from that side (br or bl). The model covers the board and its opening
layout, the click-driven session (select, deselect, switch, move, invalid
click), the toss, the win check, and the one-player opponent that lists
green's legal moves and plays one of them. Everything is pure: the board
is a record with one field per point, read with `At` and written with
`Set`, so it acts as a total map from point to occupant. The session is
an immutable `Session` value, and each step returns a new one.

Files, one module each:

- `optional.dfy`: `Option`, for the nullable fields (turn, selection).
- `topology.dfy`: points, key order, the adjacency table.
- `boards.dfy`: colours, cells, boards, the opening layout, moves, pawn counts.
- `rules.dfy`: `playerPositions`, `bothOnSameVerticalSide`, the win check.
- `enumeration.dfy`: the opponent's move list and its reference definition.
- `game.dfy`: the session state machine (`InitBoard`, `Toss`, `Click`, `AiMove`).
- `play.dfy`: runs of events from a fresh board, and what every reachable session satisfies.

Randomness is a parameter. `Toss` takes the colour the draw picked.
`AiMove` takes the index the draw picked, which must be below the length
of the move list when that list is not empty.

Points where the code's behaviour is easy to misread, and what the model does:

- A click on a second pawn of one's own while a pawn is selected moves the
  selection there (script.js:107-110). It is not an "invalid move" with a
  notice. `Play.ReselectScenario` shows this for green's bl then br.
- A move is not re-checked for ownership of its source point. The click
  handler moves whatever point is selected (script.js:94-97). The
  reachable-state invariant (`Play.Reachable`) proves that the selected
  point always holds a pawn of the side to move, so the check is never needed.
- The check tries red before green (script.js:161), which looks like a
  tie-break. `Rules.AtMostOneWinner` proves that the two
  sides can never both win, so the order never decides anything.
- The code defines no outcome for a side to move that has no move:
  script.js:202 returns without moving and without passing the turn, so
  in one-player mode green would keep the turn and script.js:77 would
  ignore every later click. `Game.AiMove` models this return: with no move
  the session is left exactly as it was. `Enumeration.StuckMeansOpponentWins` and `Play.ReachableNeverStuck`
  prove this never happens while a game is running. On a board with two
  pawns per side, a side is stuck only when its opponent already satisfies
  the win check.

## Model

| member | source | states |
|---|---|---|
| Topology.Neighbours | script.js:18-24 | the adjacency table, copied entry by entry in the table's order; no contract of its own, its shape is stated by the three lemmas below |
| Topology.KeyIndex | script.js:39 | each point's position in the board's key order tl, tr, bl, br, center; `Points` at that index is the point |
| Topology.AdjacencySymmetric | script.js:18-24 | p lists q iff q lists p |
| Topology.AdjacencyIrreflexive | script.js:18-24 | no point lists itself |
| Topology.AdjacencyShape | script.js:18-24 | the center is adjacent to every corner, and the only corner pairs are tl-bl, tr-br and bl-br; tl and tr are not adjacent |
| Boards.Opponent | script.js:162 | the colour flip, also used for the turn change at script.js:103: the result is never the colour itself, which with two colours fixes it |
| Boards.Board.Set | script.js:96-97 | writing one point sets that point and leaves the other four unchanged |
| Boards.ApplyMove | script.js:94-97 | a move clears the source, puts the mover's pawn on the destination, and leaves every other point unchanged |
| Boards.OpeningWellFormed | script.js:39 | the opening layout has two red pawns, two green pawns and an empty center |
| Boards.MovePreservesCounts | script.js:94-97 | a legal move changes no point-count of red, green or empty |
| Boards.MovePreservesWellFormed | script.js:205-206 | a legal move, human or program, keeps two pawns per side and one empty point |
| Rules.PawnsIn | script.js:146-150 | keeps exactly the points of the input holding the colour; when the input is in key order, so is the result (`PlayerPositions` only passes the key-ordered `Points`) |
| Rules.PlayerPositions | script.js:146-150 | lists exactly the points holding the colour, in board-key order |
| Rules.BothOnSameVerticalSide | script.js:152-157 | true iff the colour holds tl and bl, or tr and br |
| Rules.FirstNonCenter | script.js:166 | the first non-center entry if there is one: every earlier entry is the center; none if all entries are the center |
| Rules.OtherPawnIsFirstCorner | script.js:165-166 | the "other pawn" the check inspects is the colour's first corner in key order |
| Rules.IsWin | script.js:162-176 | one pass of the win check's loop for one player, transcribed as written; no contract of its own, its meaning is stated by `WinCells` and `WinRule` |
| Rules.WinCells | script.js:162-177 | the loop body of the check agrees on every board with `Wins`, its cell-by-cell statement: center held, opponent on tl+bl with br own and tr not own, or opponent on tr+br with bl own and tl not own |
| Rules.WinRule | script.js:164-176 | on a board with two pawns per side, a side passes the check iff it holds the center and the opponent holds tl+bl with the winner on br, or tr+br with the winner on bl |
| Rules.AtMostOneWinner | script.js:161-168 | red and green never both satisfy the check, since both would need the center |
| Rules.CheckWin | script.js:160-180 | reports colour c iff c satisfies the check (equivalently `Wins`), whichever side the loop tries first |
| Rules.BoxedLeftWins | script.js:168-172 | green on tl and bl, red on center and br: red wins |
| Rules.NearWinsDoNotCount | script.js:168-176 | green on tl and bl with red's other pawn on tr is no win for anyone, and neither is the opening |
| Rules.MoveNeverWinsForOpponent | script.js:101-103 | after a legal move on a board with two pawns per side, the opponent of the mover never satisfies the check, so any reported winner is the mover |
| Enumeration.MovesFrom | script.js:197-199 | every listed step starts at the pawn and goes to an empty point of the destination list |
| Enumeration.MovesOf | script.js:196-200 | every listed step starts at one of the pawns and goes to an empty adjacent point |
| Enumeration.Enumerate | script.js:193-200 | every listed move is legal for the colour |
| Enumeration.KeepLegal | script.js:198 | keeps exactly the legal entries of a move list |
| Enumeration.FansOfPoints | script.js:18-24 | all pawns' steps, taken in key order and adjacency order, are the fourteen `Candidates` edges |
| Enumeration.MovesOfPawnsIn | script.js:196-200 | the moves of the colour's pawns among some points are the legal steps out of those points |
| Enumeration.EnumerateIsOrderedFilter | script.js:193-200 | the move list is the legal subsequence of all edges in key order, then adjacency order: each legal move once, in that order |
| Enumeration.CandidatesAreEdges | script.js:18-24 | a step is among the fourteen candidates iff the table lists it |
| Enumeration.EnumerateSoundComplete | script.js:196-200 | a move is listed iff it goes from an own pawn to an empty adjacent point |
| Enumeration.EmptyIffNoLegalMove | script.js:202 | the list is empty iff no legal move exists |
| Enumeration.RedPositionsAtOpening | script.js:39 | at the opening red's pawns are listed as tl, then tr |
| Enumeration.GreenPositionsAtOpening | script.js:39 | at the opening green's pawns are listed as bl, then br |
| Enumeration.OpeningRedMoves | script.js:193-200 | at the opening red's only moves are tl to center, then tr to center |
| Enumeration.OpeningGreenMoves | script.js:193-200 | at the opening green's only moves are bl to center, then br to center |
| Enumeration.StuckMeansOpponentWins | script.js:202 | on a board with two pawns per side, if a side has no legal move then its opponent already wins |
| Game.InitBoard | script.js:38-46 | a fresh session has exactly the opening layout (red on tl and tr, green on bl and br, center empty), so two pawns per side and no winner; no turn, no selection, the game not over, the mode kept |
| Game.Toss | script.js:65-72 | a toss with no turn set gives the turn to the drawn side; with a turn set it changes nothing; the program's move is scheduled iff one-player mode and green won the toss |
| Game.Click | script.js:75-116 | ignored unless a turn is set, the game runs and it is not green's turn in one-player mode; moves iff a point is selected and the click is on an empty adjacent point; otherwise selects an own pawn, deselects on the selected point, or reports an invalid move, leaving the board as it was; after a move the turn flips unless the move wins; the program's move is scheduled iff a non-winning move hands green the turn in one-player mode |
| Game.AiMove | script.js:190-213 | plays nothing iff the game is over or green has no legal move, and then changes nothing; otherwise plays the picked entry of the move list, which is legal, and the turn goes to red unless the move wins |
| Game.AiCanPlayAnyLegalMove | script.js:203 | every legal green move is played for some pick below the list length |
| Play.InitBoardInv | script.js:38-46 | a fresh session satisfies the reachable-state invariant |
| Play.TossPreservesInv | script.js:65-72 | a toss keeps the invariant |
| Play.ClickPreservesInv | script.js:75-116 | a click keeps the invariant |
| Play.AiPreservesInv | script.js:190-213 | the program's move, when due, keeps the invariant |
| Play.Step | script.js:216-223 | dispatches one event: toss, click, reset, or the program move deferred at script.js:71 and 106, which runs only when it is due (one-player mode, green to move, game running); no contract of its own, `StepPreservesInv` and `OnlyTossSetsTurn` state what it keeps |
| Play.StepPreservesInv | script.js:216-223 | every event keeps the invariant |
| Play.RunPreservesInv | script.js:216-223 | any sequence of events keeps the invariant |
| Play.Reachable | script.js:38-46 | every session reached from a fresh board has two pawns per side and one empty point, a selection only on an own pawn, and is over exactly when someone wins, the winner being the side whose turn it is |
| Play.ReachableNeverStuck | script.js:196-202 | in a reachable running game the side to move always has a legal move |
| Play.OnlyTossSetsTurn | script.js:66-67 | no event other than the toss sets an undecided turn |
| Play.FirstMoveScenario | script.js:75-106 | red wins the toss, picks tl and steps to the center; this does not win, and the turn passes to green |
| Play.ReselectScenario | script.js:107-110 | green picks bl and then clicks its own pawn on br: the selection moves to br, and no invalid move is reported |

## Left out

- Rendering, the welcome screen, `render`, `showMessage` texts and clearing them, and the turn label (script.js:7-15, 49-62, 184-186). They only present the state. Click and toss outcomes carry what the messages would say.
- `animatePawnMove` (script.js:119-143). It is only an animation.
- Listener wiring (script.js:216-231). A point's click and touchstart both call the click handler; the model takes one `Click` per user action. A mode change from the radio buttons is `InitBoard` with the new mode.
- Timing (script.js:71, 106, 113, 170, 174). The model sets game-over at once when the check succeeds. The source waits 300 ms before setting it, and in that window the winner's clicks are still accepted. A reset or mode change inside the window does not cancel the pending call either, so the source can set game-over on the fresh board (script.js:170, 174, 185). `Play.Inv` rules that state out: before the toss the game is never over.
- `Play.Step` runs the program's move exactly when it is due: one-player mode, green to move, game running. The source fires the deferred call even after a reset or mode change in the meantime; that race is not modelled.
- `Math.random` (script.js:67, 203). It becomes the toss's colour parameter and the AI's pick index. In `Play.Step` the pick is reduced modulo the list length.
- Enumeration.Enumerate: takes the colour as a parameter, while the source enumerates for green only. `Game.AiMove` always passes green.
