# librechess-mobile game controller, modelled in Dafny

This project models the game controller of the librechess-mobile board screen: the
`ChessBoard` component's state slots and handlers, the check geometry its `updateBoard`
computes (the checked king, its attackers, the squares between), the FEN side-to-move rewrite
used to find those attackers, the move-list pairing of `MoveHistory`, and the piece glyph table.

The chess rules come from the chess.js library, which is not part of this model. It appears
as `Rules.Oracle`, a record of functions for the board, side to move, check, checkmate, game
over, legal destinations per square, SAN move list, move application and load validation.
`Rules.Chess` is the mutable engine object built over it (a position and a history).
Nothing is assumed about the history after `load`.

Layout:

- `squares.dfy` (`Squares`): square names, `FILES[file] + RANKS[rank]`, and parsing them back.
- `rules.dfy` (`Rules`): colours, pieces, the 8×8 grid, the oracle and the `Chess` object.
- `fen.dfy` (`Fen`): JavaScript `split(" ")`/`join(" ")` and the side-to-move swap, as written.
- `geometry.dfy` (`CheckGeometry`): the king scan, the attacker scan and the path walk.
  - Each is a method with the source's loops and is proved equal to a reference function:
    recursive for the two scans, closed-form (a sequence comprehension) for the path walk.
  - Lemmas characterise those functions exactly.
- `controller.dfy` (`Controller`): the component as the class `ChessBoard`.
  - Its fields are the state slots and the `draggedPieceSquare` ref.
  - Each handler is proved to move the fields exactly as a specification function on a
    snapshot (`UiState`, `EngineState`) says.
  - Lemmas state the behaviour of those functions.
- `scenarios.dfy` (`CheckScenarios`): the built-in test position, and a knight check.
- `history.dfy` (`MoveHistory`): the pairing loop, its reference function and the display rule.
- `pieces.dfy` (`Pieces`): the glyph table, related to Unicode's chess-symbol code points.

The code behaves as follows where a reader might expect otherwise:

- `resetGame` leaves the three check-highlight slots as they were. It does not clear them.
- A drag end is not refused while a promotion is pending or after the game is over. Only a
  drag start is gated, and only on the thinking flag and the piece's colour.
- Attackers are not split into sliding and non-sliding pieces. The path walk at
  ChessBoard.tsx:155-164 runs for every attacker and does not end for a knight (see Findings).
- A computer move has no reset epoch. A move that arrives after a reset is not discarded.
- `updateBoard` can throw. When the position with the flipped side to move does not load, the
  exception leaves the function after the original position has been reloaded.
  - The drag end (ChessBoard.tsx:422-434), the promotion select (ChessBoard.tsx:233-245) and
    the computer move (ChessBoard.tsx:267-277) swallow it. The drag start does not call
    `updateBoard`.
  - The test-position effect does not.

## Model

| member | source | states |
|---|---|---|
| Squares.SquareName | components/chess/ChessBoard.tsx:15-16 | a square name is two characters: `FILES[file]` then `RANKS[rank]` |
| Squares.IndexOf | components/chess/ChessBoard.tsx:147-148 | `indexOf` is -1 exactly when the character is absent, and otherwise the first index holding it |
| Squares.SquareNameRoundTrip | components/chess/ChessBoard.tsx:109 | parsing a built square name with `FILES.indexOf(sq[0])`/`RANKS.indexOf(sq[1])` gives back its file and rank |
| Squares.ParsedSquareRoundTrip | components/chess/ChessBoard.tsx:147-148 | a well-formed square name is rebuilt from the file and rank parsed from it |
| Squares.SquareNameInjective | components/chess/ChessBoard.tsx:135 | distinct board coordinates have distinct square names |
| Rules.At | components/chess/ChessBoard.tsx:400 | `chess.get` of a well-formed name yields the grid cell at its parsed coordinates; a malformed name yields no piece |
| Rules.AtSquareName | components/chess/ChessBoard.tsx:339-340 | `chess.get` of a built square name is the board cell at that file and rank |
| Rules.Chess.Load | components/chess/ChessBoard.tsx:131 | load succeeds exactly when the engine accepts the record; success replaces the position, rejection changes nothing |
| Rules.Chess.Move | components/chess/ChessBoard.tsx:423-426 | a move succeeds exactly when the engine accepts it; success installs the successor position and appends the move to the history, failure changes nothing |
| Rules.Chess.Reset | components/chess/ChessBoard.tsx:188 | reset restores the starting position and empties the history |
| Fen.Split | components/chess/ChessBoard.tsx:126 | `split(" ")` returns at least one field, and no field contains a space |
| Fen.Join | components/chess/ChessBoard.tsx:128 | `join(" ")`; with `Split` it is characterised by `JoinSplit` and `SplitJoin` |
| Fen.SwapTurn | components/chess/ChessBoard.tsx:124-128 | the side-to-move rewrite; `SwapTurnFields`, `SwapTurnJoin` and `SwapTurnTwice` state what it changes |
| Fen.JoinSplit | components/chess/ChessBoard.tsx:126-128 | joining the fields of a split gives back the original string |
| Fen.SplitJoin | components/chess/ChessBoard.tsx:126-128 | splitting space-free fields after a join gives back the fields |
| Fen.SwapTurnFields | components/chess/ChessBoard.tsx:124-128 | the swap changes only field 1, which becomes the other side's letter; a record with a single field gets that letter appended |
| Fen.SwapTurnJoin | components/chess/ChessBoard.tsx:124-128 | swapping the side to move in a record joined from space-free fields replaces exactly field 1 with the other side's letter |
| Fen.SwapTurnTwice | components/chess/ChessBoard.tsx:124-128 | swapping as the recorded side and then as its opponent restores the original record |
| CheckGeometry.KingSquareIsFirst | components/chess/ChessBoard.tsx:105-114 | the king found is the first square in rank-major order holding a king of the side to move; none is found exactly when there is no such king |
| CheckGeometry.KingSquare | components/chess/ChessBoard.tsx:105-114 | the reference king scan; `KingSquareIsFirst` characterises it |
| CheckGeometry.FindKing | components/chess/ChessBoard.tsx:105-114 | the nested loops with `break` return exactly that first king square |
| CheckGeometry.CursorOnAlignedLine | components/chess/ChessBoard.tsx:150-164 | on a shared line, the walk after t steps stays between the endpoints at distance t from the attacker, and reaches the king exactly at the end |
| CheckGeometry.PathSquares | components/chess/ChessBoard.tsx:155-164 | the path from an aligned attacker has one square fewer than the distance, the i-th after i+1 steps |
| CheckGeometry.PathSquareMembership | components/chess/ChessBoard.tsx:150-164 | a square is on the path exactly when it lies strictly between attacker and king on their shared line |
| CheckGeometry.PathOrderedFromAttacker | components/chess/ChessBoard.tsx:155-164 | path squares run from the attacker toward the king, one step apart; an adjacent attacker adds none |
| CheckGeometry.WalkPath | components/chess/ChessBoard.tsx:150-164 | the while loop, for an aligned attacker, produces exactly that path |
| CheckGeometry.UnalignedWalkNeverReachesKing | components/chess/ChessBoard.tsx:158-164 | for an attacker on no line of the king, the walk's position never equals the king, so the loop never exits |
| CheckGeometry.GuardedPath | components/chess/ChessBoard.tsx:150-164 | the walk with an alignment guard: empty for an unaligned attacker, otherwise the path |
| CheckGeometry.GuardedPathMembership | components/chess/ChessBoard.tsx:150-164 | a square is on the guarded path exactly when the attacker is aligned and the square lies strictly between |
| CheckGeometry.ScanAttackersMembership | components/chess/ChessBoard.tsx:133-143 | the scan so far lists exactly the squares before its position whose piece is the opponent's and whose move list in the probe position holds the king |
| CheckGeometry.ScanHungExactly | components/chess/ChessBoard.tsx:133-164 | the scan meets a never-ending walk exactly when some attacker seen so far is on no line of the king |
| CheckGeometry.ScanPathMembership | components/chess/ChessBoard.tsx:133-164 | the path so far holds exactly the squares strictly between the king and an aligned attacker already seen |
| CheckGeometry.ScanAttackersBefore | components/chess/ChessBoard.tsx:133-135 | every attacker listed so far lies before the scan position |
| CheckGeometry.ScanAttackersOrdered | components/chess/ChessBoard.tsx:133-142 | attackers are listed in strictly increasing scan order |
| CheckGeometry.GeometryExactly | components/chess/ChessBoard.tsx:133-168 | over the whole board:<br>• the attackers are exactly the opposing pieces whose probe move list reaches the king, in scan order<br>• the path is exactly the squares that lie strictly between the king and an aligned attacker<br>• `hung` holds exactly when some attacker is unaligned |
| CheckGeometry.Geometry | components/chess/ChessBoard.tsx:133-168 | the reference attacker scan over the whole board; `GeometryExactly` characterises its attackers, path and hang flag |
| CheckGeometry.ScanAttackers | components/chess/ChessBoard.tsx:133-168 | the attacker loops report the unending walk exactly when it occurs, and otherwise return exactly the attackers and path of the reference scan |
| Controller.Sans | components/chess/ChessBoard.tsx:79-80 | the move-history slot holds the SAN of each played move, in order |
| Controller.RefreshReadsEngine | components/chess/ChessBoard.tsx:78-96 | every refresh sets board, SAN history and last move (none for an empty history) from the engine, and changes no other slot except the check highlights |
| Controller.RefreshGating | components/chess/ChessBoard.tsx:99-117 | outside "check and not checkmate" all three highlights are cleared and the engine is untouched; with no king found nothing is set |
| Controller.RefreshKing | components/chess/ChessBoard.tsx:99-117 | in check, the highlighted king is the first king of the side to move in scan order |
| Controller.RefreshAttackers | components/chess/ChessBoard.tsx:120-178 | a completed refresh in check sets the attacker slot to exactly the opponent pieces whose probe move list includes the king square (listed in scan order), and the path slot to exactly the squares strictly between the king and an aligned attacker |
| Controller.RefreshRestoresPosition | components/chess/ChessBoard.tsx:129-172 | the original position is reloaded whether the probe load throws or the scan completes; only the unending walk leaves the probe position loaded |
| Controller.Attempt | components/chess/ChessBoard.tsx:423-430 | a rejected move changes nothing and snaps back; an accepted one is the refresh of the successor position, reported as moved when that refresh does not hang and as diverged exactly when it hangs |
| Controller.Successor | components/chess/ChessBoard.tsx:423-426 | an accepted `chess.move` installs the engine's successor position and appends the move to the history |
| Controller.PlayerColor | components/chess/ChessBoard.tsx:344 | the human plays the side the computer does not |
| Controller.DragStartSelects | components/chess/ChessBoard.tsx:333-350 | the drag-start gate; `DragStartGating` states that it decides exactly when a drag start selects |
| Controller.DragStartGating | components/chess/ChessBoard.tsx:332-363 | a drag start selects the square and its legal destinations exactly when the computer is not thinking, the piece is the player's in vs-computer mode and that side is to move; otherwise nothing changes |
| Controller.IsPromotion | components/chess/ChessBoard.tsx:400-405 | a pawn dropped on the last rank of its side; `DragEndPromotion` and `DragEndAttemptsOneMove` split the drop on it |
| Controller.DragEndWithoutTarget | components/chess/ChessBoard.tsx:382-397 | a missing target, missing source or drop on the source clears the selection and moves nothing |
| Controller.DragEndPromotion | components/chess/ChessBoard.tsx:399-418 | a pawn taken to its last rank with a legal target records the pending move and opens the dialog without moving; selection, hover, legal moves and drag are cleared and no other slot changes |
| Controller.DragEndAttemptsOneMove | components/chess/ChessBoard.tsx:422-440 | any other drop attempts exactly one move: a rejection changes no position and clears the drag; an acceptance is the refresh of the successor position (reported as moved unless that refresh hangs, in which case the refreshed slots are kept as they are), after which the selection, hover, legal moves and drag are cleared unless the refresh hangs |
| Controller.PromotionSelectResolves | components/chess/ChessBoard.tsx:229-251 | without a pending move nothing happens; otherwise exactly one move with the chosen piece is tried: a rejection changes no position, an acceptance is the refresh of its successor position (reported as moved unless that refresh hangs, in which case the refreshed slots are kept as they are); the pending move and dialog are cleared unless the refresh hangs |
| Controller.ResetLeavesCheckHighlights | components/chess/ChessBoard.tsx:187-202 | reset clears pending move, history, last move, selection and the thinking flag, and leaves the check highlights untouched |
| Controller.ComputerToMove | components/chess/ChessBoard.tsx:254-263 | the computer-turn test; `ComputerMovesOnlyOnItsTurn` and `NoHumanDragOnComputerTurn` state its effect |
| Controller.NoHumanDragOnComputerTurn | components/chess/ChessBoard.tsx:254-263 | while the computer is to move, a drag start changes nothing |
| Controller.ComputerMovesOnlyOnItsTurn | components/chess/ChessBoard.tsx:253-278 | the computer acts only in vs-computer mode, before game over, with its colour to move; with no legal move it only clears the thinking flag; otherwise it plays the picked SAN move, whose acceptance is the refresh of the successor position (reported as moved unless that refresh hangs, in which case the refreshed slots are kept as they are); once it finishes, the thinking flag is off |
| Controller.Winner | components/chess/ChessBoard.tsx:604-610 | a winner exists exactly after checkmate, and it is the side not to move |
| Controller.ChessBoard.constructor | components/chess/ChessBoard.tsx:49-75 | the slots start at their `useState` values, with a fresh engine at the starting position |
| Controller.ChessBoard.UpdateBoard | components/chess/ChessBoard.tsx:77-185 | the refresh moves slots and engine exactly as the specification `Refresh` says |
| Controller.ChessBoard.HighlightCheck | components/chess/ChessBoard.tsx:99-184 | the check branch moves slots and engine exactly as `Highlight` says |
| Controller.ChessBoard.ProbeAttackers | components/chess/ChessBoard.tsx:120-178 | the load, scan and reload move slots and engine exactly as `Probe` says |
| Controller.ChessBoard.PlayAndRefresh | components/chess/ChessBoard.tsx:423-430 | one `chess.move` followed by `updateBoard` on success, as `Attempt` says |
| Controller.ChessBoard.ResetGame | components/chess/ChessBoard.tsx:187-202 | the engine is at the start with an empty history, and the slots are as `AfterReset` says |
| Controller.ChessBoard.HandleDragStart | components/chess/ChessBoard.tsx:332-366 | the slots change exactly as `DragStart` says; the engine is untouched |
| Controller.ChessBoard.HandleDragEnd | components/chess/ChessBoard.tsx:377-443 | slots and engine change exactly as `DragEnd` says |
| Controller.ChessBoard.DropPiece | components/chess/ChessBoard.tsx:399-440 | a drop on another square changes slots and engine exactly as `Drop` says: a pending promotion, or one move attempt |
| Controller.ChessBoard.HandlePromotionSelect | components/chess/ChessBoard.tsx:229-251 | slots and engine change exactly as `PromotionSelect` says |
| Controller.ChessBoard.MakeComputerMove | components/chess/ChessBoard.tsx:253-278 | slots and engine change exactly as `ComputerMove` says, for the move the selector picks |
| Controller.ChessBoard.LoadTestPosition | components/chess/ChessBoard.tsx:219-227 | a rejected record changes nothing; an accepted one is loaded and refreshed |
| Controller.ChessBoard.CheckGameOver | components/chess/ChessBoard.tsx:212-216 | the game-over dialog opens exactly when the engine reports game over |
| CheckScenarios.SingleAttacker | components/chess/ChessBoard.tsx:133-168 | with a single attacker, the scan lists that square and its guarded path, and hangs exactly when the attacker is unaligned |
| CheckScenarios.TestProbe | components/chess/ChessBoard.tsx:124-128 | the probe record of the test position is the same placement with black to move |
| CheckScenarios.TestKing | components/chess/ChessBoard.tsx:105-114 | the king found in the test position is e1 |
| CheckScenarios.TestPath | components/chess/ChessBoard.tsx:150-164 | the walk from e7 to e1 gives e6, e5, e4, e3, e2 |
| CheckScenarios.TestPositionHighlights | components/chess/ChessBoard.tsx:219-226 | in the test position, if only the e7 queen reaches e1, the attacker list is [e7] and the path is [e6, e5, e4, e3, e2] |
| CheckScenarios.TestPositionRefresh | components/chess/ChessBoard.tsx:219-226 | refreshing the loaded test record, when the engine reads it as the test grid in check and only the e7 queen reaches e1 in the probe record, completes with e1 marked, attackers [e7] and path [e6, e5, e4, e3, e2], and TestFen loaded again |
| CheckScenarios.KnightCheckHangs | components/chess/ChessBoard.tsx:155-164 | a knight on f3 checking e1 makes the scan hang, and the walk never reaches e1 |
| CheckScenarios.KnightCheckRefreshDiverges | components/chess/ChessBoard.tsx:99-164 | in such a position, with the side to move in check but not mated, updateBoard never returns and the probe position stays loaded |
| MoveHistory.Paired | components/chess/MoveHistory.tsx:21-31 | the reference pairing; `PairedShape`, `FlattenPaired` and `OnlyLastRowIncomplete` characterise it |
| MoveHistory.PairedShape | components/chess/MoveHistory.tsx:23-30 | n moves give ⌈n/2⌉ rows; row k is numbered k+1 with white = moves[2k] and black = moves[2k+1] when it exists |
| MoveHistory.FlattenPaired | components/chess/MoveHistory.tsx:21-31 | reading the rows' moves back in order reproduces the history |
| MoveHistory.OnlyLastRowIncomplete | components/chess/MoveHistory.tsx:26-27 | only the last row can lack black's move, and it does exactly when the number of moves is odd |
| MoveHistory.MoveNumbersIncrease | components/chess/MoveHistory.tsx:25 | move numbers strictly increase, so the row keys are distinct |
| MoveHistory.PairMoves | components/chess/MoveHistory.tsx:21-31 | the `for` loop with `i += 2` builds exactly the reference pairing |
| MoveHistory.Shown | components/chess/MoveHistory.tsx:54-57 | a cell shows its move, or "..." when the move is missing or empty |
| MoveHistory.RenderHistory | components/chess/MoveHistory.tsx:46-57 | "No moves yet" appears exactly for an empty history; otherwise there is one row per pair labelled 1, 2, …, and a missing reply shows "..." |
| Pieces.PieceSymbol | components/chess/pieces.ts:17-20 | no piece gives ""; a table letter gives its glyph; any other string gives "" |
| Pieces.SymbolIsUnicodeChessSymbol | components/chess/pieces.ts:2-14 | each piece's FEN letter maps to that piece's Unicode chess symbol (white from U+2654 in king, queen, rook, bishop, knight, pawn order; black six further on) |
| Pieces.SymbolsDistinguishPieces | components/chess/pieces.ts:2-14 | distinct pieces get distinct glyphs |
| Pieces.TableIsThePieceLetters | components/chess/pieces.ts:2-19 | the table's keys are exactly the twelve FEN piece letters; any other string has no glyph |

## Left out

- The chess rules: legal moves, check, mate, draws, SAN, FEN validation and the effect of `load` on the history.
  - These belong to chess.js, which is not part of this model. They appear as the functions of `Rules.Oracle`.
- Rules.Sane: assumes that the engine accepts its own positions. The start position loads, and
  so does every position `play` produces. So the reload of the original record after the probe
  (ChessBoard.tsx:131-172, in `finally`) never throws, and the model does not give it an error path.
- A position is identified with the exact FEN string the engine reports. Any normalisation
  `chess.fen()` applies, for example to move counters or the en-passant field, is not modelled.
  The probe record is built from that string, as at ChessBoard.tsx:124-128.
- Controller.ChessBoard.UpdateBoard: does not model the `console.log` calls or the `onMoveHistoryChange` callback (ChessBoard.tsx:82-85, 174-176).
- Controller.ChessBoard.MakeComputerMove: models one call synchronously.
  - The random choice is the parameter `pick`, reduced modulo the number of moves; the delay is not modelled.
  - The `useEffect` that triggers the call (ChessBoard.tsx:280-299), React's re-rendering and state batching are not modelled.
- `getSquareFromCoordinates` and `handleDragMove` (hover tracking) are not modelled. Both use floating-point pixel arithmetic. The drag end takes the target square as an optional square instead.
- `activePieceRef`, `pieceRefs`, `DraggablePiece`, rendering, orientation, styles and the dialog and badge components are not modelled. They are animation and presentation.
- The `isDraw` flag passed to the game-over dialog is not modelled. It is an engine query that is only displayed.
- CheckGeometry.ScanAttackers: when the walk would not end, the model stops the scan and reports `hung`. The source never returns, and grows `pathSquares` until memory runs out.
- Pieces.PieceSymbol: strings that name inherited `Object.prototype` members (such as "constructor") are not modelled. The source's lookup returns those members, not ""; the model answers "".
- app/_layout.tsx and app/index.tsx are not modelled. They are navigation and hooks.

## Findings

| source | as written | input that shows it | evidently intended | confidence | as-written member | corrected member |
|---|---|---|---|---|---|---|
| components/chess/ChessBoard.tsx:155-164 | the path walk loops until it lands on the king square, stepping by the sign of each coordinate difference | white to move, in check, black knight on f3 and white king on e1, e.g. `rnbqkb1r/pppppppp/8/8/8/5n2/PPPPPPPP/RNBQKBNR w KQkq - 0 1`; from the attacker on f3 the walk visits e2, d1, then a square named `cundefined` (`RANKS[8]` does not exist), and so on; it never lands on e1, so `updateBoard` never returns | only an attacker on a shared rank, file or diagonal has path squares; a knight contributes none | not executed | CheckGeometry.UnalignedWalkNeverReachesKing | CheckGeometry.GuardedPath |
