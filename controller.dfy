/**
 * The game controller of components/chess/ChessBoard.tsx. The component's state
 * slots and refs are the fields of `ChessBoard`; `chess` is the engine object it
 * mutates. Each handler is specified by a function on a snapshot of the slots
 * (`UiState`) and of the engine (`EngineState`), and the class's methods are proved
 * to move the real fields exactly as those functions say.
 */
module Controller {
  import opened Wrappers
  import opened Squares
  import opened Rules
  import opened Fen
  import opened CheckGeometry

  /** The component's props that steer the controller. */
  datatype Config = Config(vsComputer: bool, computerColor: Color)

  /** The state slots and the draggedPieceSquare ref. */
  datatype UiState = UiState(
    board: Grid,
    selected: Option<Square>,
    hover: Option<Square>,
    legalMoves: seq<Square>,
    thinking: bool,
    showPromotion: bool,
    pending: Option<(Square, Square)>,
    showGameOver: bool,
    kingInCheck: Option<Square>,
    attacking: seq<Square>,
    checkPath: seq<Square>,
    moveHistory: seq<string>,
    lastFrom: Option<Square>,
    lastTo: Option<Square>,
    dragged: Option<Square>)

  datatype EngineState = EngineState(fen: string, history: seq<Played>)

  /** How updateBoard ends: normally, by the exception of a probe position that does not
      load, or inside the walk that never ends. */
  datatype UpdateOutcome = Completed | Threw | Hung

  datatype Refreshed = Refreshed(ui: UiState, engine: EngineState, outcome: UpdateOutcome)

  datatype HandlerOutcome = Ignored | Cleared | AwaitingPromotion | Moved | SnappedBack | NoMoveAvailable | Diverged

  datatype Handled = Handled(ui: UiState, engine: EngineState, outcome: HandlerOutcome)

  /** The slots' initial values (the useState arguments). */
  function Initial(o: Oracle): UiState {
    UiState(o.board(o.start), None, None, [], false, false, None, false, None, [], [], [], None, None, None)
  }

  /** chess.history(): the SAN of each played move. */
  function Sans(h: seq<Played>): (sans: seq<string>)
    ensures |sans| == |h| && forall i :: 0 <= i < |h| ==> sans[i] == h[i].san
  {
    seq(|h|, i requires 0 <= i < |h| => h[i].san)
  }

  // ---------------------------------------------------------------------------
  // updateBoard

  /** The first half of updateBoard (ChessBoard.tsx:78-99): board, SAN history and last move
      re-read from the engine. */
  function ReadEngine(o: Oracle, s: UiState, e: EngineState): UiState {
    var h := e.history;
    s.(board := o.board(e.fen), moveHistory := Sans(h),
       lastFrom := if |h| > 0 then Some(h[|h| - 1].from) else None,
       lastTo := if |h| > 0 then Some(h[|h| - 1].to) else None)
  }

  /** The probe of ChessBoard.tsx:123-172 for the king on `k`: load the position with the turn
      flipped, scan the attackers and their paths, reload the original. */
  function Probe(o: Oracle, s: UiState, e: EngineState, turn: Color, k: Coord): Refreshed
    requires OnBoardAt(k)
  {
    var probe := SwapTurn(e.fen, turn);
    if !o.loads(probe) then
      Refreshed(s, EngineState(e.fen, o.afterLoad(e.history, e.fen)), Threw)
    else
      var h1 := o.afterLoad(e.history, probe);
      var scan := Geometry(o.board(e.fen), turn, o, probe, k);
      if scan.hung then Refreshed(s, EngineState(probe, h1), Hung)
      else Refreshed(s.(attacking := scan.attackers, checkPath := scan.path),
                     EngineState(e.fen, o.afterLoad(h1, e.fen)), Completed)
  }

  /** The check highlighting of updateBoard (ChessBoard.tsx:101-184). */
  function Highlight(o: Oracle, s: UiState, e: EngineState): Refreshed {
    if o.inCheck(e.fen) && !o.checkmate(e.fen) then
      var turn := o.turn(e.fen);
      var g := o.board(e.fen);
      KingSquareIsFirst(g, turn);
      match KingSquare(g, turn)
      case None => Refreshed(s, e, Completed)
      case Some(k) => Probe(o, s.(kingInCheck := Some(SquareName(k.file, k.rank))), e, turn, k)
    else
      Refreshed(s.(kingInCheck := None, attacking := [], checkPath := []), e, Completed)
  }

  /** updateBoard (ChessBoard.tsx:77-185) on a snapshot. */
  function Refresh(o: Oracle, s: UiState, e: EngineState): Refreshed {
    Highlight(o, ReadEngine(o, s, e), e)
  }

  predicate InCheckNotMate(o: Oracle, e: EngineState) {
    o.inCheck(e.fen) && !o.checkmate(e.fen)
  }

  /** Every refresh re-reads the board, the SAN history and the last move, and touches no
      slot other than those and the three check-highlight slots. */
  lemma RefreshReadsEngine(o: Oracle, s: UiState, e: EngineState)
    ensures var r := Refresh(o, s, e).ui;
      && r.board == o.board(e.fen) && r.moveHistory == Sans(e.history)
      && (|e.history| > 0 ==>
            r.lastFrom == Some(e.history[|e.history| - 1].from) && r.lastTo == Some(e.history[|e.history| - 1].to))
      && (|e.history| == 0 ==> r.lastFrom == None && r.lastTo == None)
      && r.(board := s.board, moveHistory := s.moveHistory, lastFrom := s.lastFrom, lastTo := s.lastTo,
            kingInCheck := s.kingInCheck, attacking := s.attacking, checkPath := s.checkPath) == s
  {
    var s1 := ReadEngine(o, s, e);
    HighlightFrame(o, s1, e);
  }

  /** The probe writes only the attacker and path slots. */
  lemma ProbeFrame(o: Oracle, s: UiState, e: EngineState, turn: Color, k: Coord)
    requires OnBoardAt(k)
    ensures var r := Probe(o, s, e, turn, k).ui;
            r.(attacking := s.attacking, checkPath := s.checkPath) == s
  {
  }

  /** The check highlighting writes only the three highlight slots. */
  lemma HighlightFrame(o: Oracle, s: UiState, e: EngineState)
    ensures var r := Highlight(o, s, e).ui;
            r.(kingInCheck := s.kingInCheck, attacking := s.attacking, checkPath := s.checkPath) == s
  {
    if o.inCheck(e.fen) && !o.checkmate(e.fen) {
      var turn := o.turn(e.fen);
      var g := o.board(e.fen);
      KingSquareIsFirst(g, turn);
      if KingSquare(g, turn).Some? {
        var k := KingSquare(g, turn).value;
        ProbeFrame(o, s.(kingInCheck := Some(SquareName(k.file, k.rank))), e, turn, k);
      }
    }
  }

  /** Geometry is computed only in check and not checkmate; otherwise all three highlight
      slots are cleared and the engine is left alone. */
  lemma RefreshGating(o: Oracle, s: UiState, e: EngineState)
    ensures !InCheckNotMate(o, e) ==>
              var r := Refresh(o, s, e);
              && r.ui.kingInCheck == None && r.ui.attacking == [] && r.ui.checkPath == []
              && r.engine == e && r.outcome == Completed
    ensures InCheckNotMate(o, e) && KingSquare(o.board(e.fen), o.turn(e.fen)).None? ==>
              var r := Refresh(o, s, e);
              && r.ui.kingInCheck == s.kingInCheck && r.ui.attacking == s.attacking
              && r.ui.checkPath == s.checkPath && r.engine == e && r.outcome == Completed
  {
  }

  /** In check, the highlighted king is the first king of the side to move in scan order. */
  lemma RefreshKing(o: Oracle, s: UiState, e: EngineState)
    requires InCheckNotMate(o, e)
    ensures var g := o.board(e.fen);
            var turn := o.turn(e.fen);
            KingSquare(g, turn).Some? ==>
              var k := KingSquare(g, turn).value;
              && OnBoardAt(k)
              && IsKingOf(g, turn, k.file, k.rank)
              && (forall r, f :: OnBoard(f, r) && ScanBefore(r, f, k.rank, k.file) ==> !IsKingOf(g, turn, f, r))
              && Refresh(o, s, e).ui.kingInCheck == Some(SquareName(k.file, k.rank))
  {
    KingSquareIsFirst(o.board(e.fen), o.turn(e.fen));
  }

  /** When the refresh completes in check, the attacker slot holds exactly the opposing
      pieces whose move list in the probe position (the turn field flipped) reaches the king,
      and the path slot exactly the squares strictly between the king and such an attacker. */
  lemma RefreshAttackers(o: Oracle, s: UiState, e: EngineState)
    requires InCheckNotMate(o, e)
    requires KingSquare(o.board(e.fen), o.turn(e.fen)).Some?
    requires Refresh(o, s, e).outcome == Completed
    ensures var g := o.board(e.fen);
            var turn := o.turn(e.fen);
            var k := KingSquare(g, turn).value;
            var probe := SwapTurn(e.fen, turn);
            var r := Refresh(o, s, e).ui;
            && OnBoardAt(k)
            && (forall f, rk :: OnBoard(f, rk) ==>
                  (SquareName(f, rk) in r.attacking <==>
                    && g[rk][f].Some? && g[rk][f].value.color != turn
                    && SquareName(k.file, k.rank) in o.destinations(probe, SquareName(f, rk))))
            && (forall sq :: sq in r.attacking ==> IsSquare(sq))
            && InScanOrder(r.attacking)
            && (forall pf, pr :: OnBoard(pf, pr) ==>
                  (SquareName(pf, pr) in r.checkPath <==>
                    exists f, rk :: OnBoard(f, rk) && IsAttacker(g, turn, o, probe, k, f, rk)
                                    && Aligned(Coord(f, rk), k) && StrictlyBetween(Coord(f, rk), k, Coord(pf, pr))))
  {
    var g := o.board(e.fen);
    var turn := o.turn(e.fen);
    KingSquareIsFirst(g, turn);
    GeometryExactly(g, turn, o, SwapTurn(e.fen, turn), KingSquare(g, turn).value);
    SwapTurnFields(e.fen, turn);
  }

  /** The original position is reloaded whether or not the probe throws; only a walk that
      never ends leaves the probe position in place. */
  lemma RefreshRestoresPosition(o: Oracle, s: UiState, e: EngineState)
    ensures Refresh(o, s, e).outcome != Hung ==> Refresh(o, s, e).engine.fen == e.fen
    ensures Refresh(o, s, e).outcome == Hung ==>
              && InCheckNotMate(o, e)
              && Refresh(o, s, e).engine.fen == SwapTurn(e.fen, o.turn(e.fen))
  {
  }

  // ---------------------------------------------------------------------------
  // Handlers

  /** One call to chess.move followed, if it is accepted, by updateBoard: SnappedBack when the
      engine rejects the move (nothing changes), Moved or Diverged after the refresh. */
  function Attempt(o: Oracle, s: UiState, e: EngineState, m: Move): (r: Handled)
    ensures r.outcome == SnappedBack || r.outcome == Moved || r.outcome == Diverged
    ensures o.play(e.fen, m).None? ==> r == Handled(s, e, SnappedBack)
    ensures o.play(e.fen, m).Some? ==>
              var q := Refresh(o, s, Successor(o, e, m));
              && r.ui == q.ui && r.engine == q.engine
              && (r.outcome == Diverged <==> q.outcome == Hung)
              && (q.outcome != Hung ==> r.outcome == Moved)
  {
    if o.play(e.fen, m).None? then Handled(s, e, SnappedBack)
    else
      var q := Refresh(o, s, Successor(o, e, m));
      Handled(q.ui, q.engine, if q.outcome == Hung then Diverged else Moved)
  }

  /** The engine after an accepted move: the successor position, with the move appended to
      the history. */
  function Successor(o: Oracle, e: EngineState, m: Move): (next: EngineState)
    requires o.play(e.fen, m).Some?
    ensures next.fen == o.play(e.fen, m).value.0
    ensures next.history == e.history + [o.play(e.fen, m).value.1]
  {
    EngineState(o.play(e.fen, m).value.0, e.history + [o.play(e.fen, m).value.1])
  }

  /** The drag bookkeeping cleared at the end of handleDragEnd. */
  function ClearDrag(s: UiState): UiState {
    s.(selected := None, hover := None, legalMoves := [], dragged := None)
  }

  /** The side the human plays in vs-computer mode. */
  function PlayerColor(cfg: Config): (c: Color)
    ensures c != cfg.computerColor
  {
    if cfg.computerColor == White then Black else White
  }

  /** Whether handleDragStart selects the dragged piece (ChessBoard.tsx:335-350). */
  predicate DragStartSelects(cfg: Config, thinking: bool, piece: Option<Piece>, turn: Color) {
    && !thinking
    && piece.Some?
    && (cfg.vsComputer ==> piece.value.color == PlayerColor(cfg))
    && piece.value.color == turn
  }

  /** handleDragStart (ChessBoard.tsx:332-366) on a snapshot. */
  function DragStart(o: Oracle, cfg: Config, s: UiState, e: EngineState, file: int, rank: int): UiState
    requires OnBoard(file, rank)
  {
    if s.thinking then s
    else
      var square := SquareName(file, rank);
      var piece := At(o.board(e.fen), square);
      if cfg.vsComputer && piece.Some? && piece.value.color != PlayerColor(cfg) then s
      else if piece.Some? && piece.value.color == o.turn(e.fen) then
        s.(dragged := Some(square), selected := Some(square), legalMoves := o.destinations(e.fen, square))
      else s
  }

  /** A drag start selects the square and its legal destinations exactly when the computer is
      not thinking, the piece there is the player's (in vs-computer mode) and it is that
      piece's side to move; otherwise nothing changes. */
  lemma DragStartGating(o: Oracle, cfg: Config, s: UiState, e: EngineState, file: int, rank: int)
    requires OnBoard(file, rank)
    ensures var piece := o.board(e.fen)[rank][file];
            var square := SquareName(file, rank);
            if DragStartSelects(cfg, s.thinking, piece, o.turn(e.fen)) then
              DragStart(o, cfg, s, e, file, rank)
                == s.(dragged := Some(square), selected := Some(square), legalMoves := o.destinations(e.fen, square))
            else DragStart(o, cfg, s, e, file, rank) == s
  {
    AtSquareName(o.board(e.fen), file, rank);
  }

  /** The pawn-promotion test of handleDragEnd (ChessBoard.tsx:400-405). */
  predicate IsPromotion(piece: Option<Piece>, to: Square) {
    && piece.Some? && piece.value.kind == Pawn
    && |to| >= 2
    && ((piece.value.color == White && to[1] == '8') || (piece.value.color == Black && to[1] == '1'))
  }

  /** handleDragEnd (ChessBoard.tsx:377-443) on a snapshot; `to` is the square under the
      finger, if any. */
  function DragEnd(o: Oracle, s: UiState, e: EngineState, to: Option<Square>): Handled {
    if to.None? || s.dragged.None? || to.value == s.dragged.value then
      Handled(ClearDrag(s), e, Cleared)
    else
      Drop(o, s, e, s.dragged.value, to.value)
  }

  /** The part of handleDragEnd that runs once the piece is dropped on another square. */
  function Drop(o: Oracle, s: UiState, e: EngineState, from: Square, to: Square): Handled {
    var piece := At(o.board(e.fen), from);
    if IsPromotion(piece, to) && to in o.destinations(e.fen, from) then
      Handled(ClearDrag(s).(pending := Some((from, to)), showPromotion := true), e, AwaitingPromotion)
    else
      var r := Attempt(o, s, e, Coordinates(from, to, None));
      if r.outcome == Diverged then r else Handled(ClearDrag(r.ui), r.engine, r.outcome)
  }

  /** A missing target, a missing source or a drop on the source square clears the selection
      and moves nothing. */
  lemma DragEndWithoutTarget(o: Oracle, s: UiState, e: EngineState, to: Option<Square>)
    requires to.None? || s.dragged.None? || to == s.dragged
    ensures DragEnd(o, s, e, to) == Handled(ClearDrag(s), e, Cleared)
  {
  }

  /** A legal pawn move to the last rank records the pending move without moving. */
  lemma DragEndPromotion(o: Oracle, s: UiState, e: EngineState, to: Square)
    requires s.dragged.Some? && s.dragged.value != to
    requires IsPromotion(At(o.board(e.fen), s.dragged.value), to)
    requires to in o.destinations(e.fen, s.dragged.value)
    ensures var r := DragEnd(o, s, e, Some(to));
            && r.engine == e && r.outcome == AwaitingPromotion
            && r.ui.pending == Some((s.dragged.value, to)) && r.ui.showPromotion
            && r.ui.dragged == None && r.ui.selected == None && r.ui.hover == None && r.ui.legalMoves == []
            && r.ui.(pending := s.pending, showPromotion := s.showPromotion, dragged := s.dragged,
                     selected := s.selected, hover := s.hover, legalMoves := s.legalMoves) == s
  {
  }

  /** Any other drop attempts exactly one move: a rejected move changes no position ("snap
      back"), an accepted one is the engine's successor position, refreshed. */
  lemma DragEndAttemptsOneMove(o: Oracle, s: UiState, e: EngineState, to: Square)
    requires s.dragged.Some? && s.dragged.value != to
    requires !(IsPromotion(At(o.board(e.fen), s.dragged.value), to) && to in o.destinations(e.fen, s.dragged.value))
    ensures var m := Coordinates(s.dragged.value, to, None);
            var r := DragEnd(o, s, e, Some(to));
            && (o.play(e.fen, m).None? ==> r.engine == e && r.outcome == SnappedBack && r.ui == ClearDrag(s))
            && (o.play(e.fen, m).Some? ==>
                  var q := Refresh(o, s, Successor(o, e, m));
                  && r.engine == q.engine
                  && (r.outcome == Diverged <==> q.outcome == Hung)
                  && (q.outcome != Hung ==> r.outcome == Moved)
                  && (r.outcome == Diverged ==> r.ui == q.ui)
                  && (r.outcome == Moved ==> r.ui == ClearDrag(q.ui)))
  {
  }

  predicate IsPromotionKind(k: Kind) {
    k == Queen || k == Rook || k == Bishop || k == Knight
  }

  /** handlePromotionSelect (ChessBoard.tsx:229-251) on a snapshot. */
  function PromotionSelect(o: Oracle, s: UiState, e: EngineState, kind: Kind): Handled
    requires IsPromotionKind(kind)
  {
    match s.pending
    case None => Handled(s, e, Ignored)
    case Some(fromTo) =>
      var r := Attempt(o, s, e, Coordinates(fromTo.0, fromTo.1, Some(kind)));
      if r.outcome == Diverged then r else Handled(r.ui.(showPromotion := false, pending := None), r.engine, r.outcome)
  }

  /** Without a pending move nothing happens; with one, exactly one move carrying the chosen
      piece is attempted and the pending move and its dialog are cleared whatever the result. */
  lemma PromotionSelectResolves(o: Oracle, s: UiState, e: EngineState, kind: Kind)
    requires IsPromotionKind(kind)
    ensures s.pending.None? ==> PromotionSelect(o, s, e, kind) == Handled(s, e, Ignored)
    ensures s.pending.Some? ==>
              var m := Coordinates(s.pending.value.0, s.pending.value.1, Some(kind));
              var r := PromotionSelect(o, s, e, kind);
              && (r.outcome != Diverged ==> r.ui.pending == None && !r.ui.showPromotion)
              && (o.play(e.fen, m).None? ==>
                    r == Handled(s.(showPromotion := false, pending := None), e, SnappedBack))
              && (o.play(e.fen, m).Some? ==>
                    var q := Refresh(o, s, Successor(o, e, m));
                    && r.engine == q.engine
                    && (r.outcome == Diverged <==> q.outcome == Hung)
                    && (q.outcome != Hung ==> r.outcome == Moved)
                    && (r.outcome == Diverged ==> r.ui == q.ui)
                    && (r.outcome == Moved ==> r.ui == q.ui.(showPromotion := false, pending := None)))
  {
  }

  /** resetGame (ChessBoard.tsx:187-202) on a snapshot. */
  function AfterReset(o: Oracle, s: UiState): UiState {
    s.(board := o.board(o.start), selected := None, hover := None, legalMoves := [], thinking := false,
       showPromotion := false, pending := None, showGameOver := false, moveHistory := [],
       lastFrom := None, lastTo := None, dragged := None)
  }

  /** A reset clears pending move, history, last move, selection and the thinking flag, and
      leaves the three check-highlight slots as they were. */
  lemma ResetLeavesCheckHighlights(o: Oracle, s: UiState)
    ensures var r := AfterReset(o, s);
            && r.pending == None && r.moveHistory == [] && r.lastFrom == None && r.lastTo == None
            && r.selected == None && r.dragged == None && r.legalMoves == [] && !r.thinking
            && r.kingInCheck == s.kingInCheck && r.attacking == s.attacking && r.checkPath == s.checkPath
  {
  }

  /** The computer-turn test of makeComputerMove (ChessBoard.tsx:254-263). */
  predicate ComputerToMove(cfg: Config, gameOver: bool, turn: Color) {
    cfg.vsComputer && !gameOver && cfg.computerColor == turn
  }

  /** While the computer is to move, no drag start selects anything. */
  lemma NoHumanDragOnComputerTurn(o: Oracle, cfg: Config, s: UiState, e: EngineState, file: int, rank: int)
    requires OnBoard(file, rank)
    requires ComputerToMove(cfg, o.gameOver(e.fen), o.turn(e.fen))
    ensures DragStart(o, cfg, s, e, file, rank) == s
  {
  }

  /** makeComputerMove (ChessBoard.tsx:253-278) run to completion: `pick` stands for the random
      index the move selector draws (ChessAI.ts:44). */
  function ComputerMove(o: Oracle, cfg: Config, s: UiState, e: EngineState, pick: nat): Handled {
    if !ComputerToMove(cfg, o.gameOver(e.fen), o.turn(e.fen)) then Handled(s, e, Ignored)
    else
      var moves := o.sanMoves(e.fen);
      if |moves| == 0 then Handled(s.(thinking := false), e, NoMoveAvailable)
      else
        var r := Attempt(o, s.(thinking := true), e, San(moves[pick % |moves|]));
        if r.outcome == Diverged then r else Handled(r.ui.(thinking := false), r.engine, r.outcome)
  }

  /** The computer moves only when the predicate holds, and then plays the picked legal move:
      an accepted move installs its successor position and refreshes. */
  lemma ComputerMovesOnlyOnItsTurn(o: Oracle, cfg: Config, s: UiState, e: EngineState, pick: nat)
    ensures !ComputerToMove(cfg, o.gameOver(e.fen), o.turn(e.fen)) ==>
              ComputerMove(o, cfg, s, e, pick) == Handled(s, e, Ignored)
    ensures ComputerToMove(cfg, o.gameOver(e.fen), o.turn(e.fen)) && |o.sanMoves(e.fen)| == 0 ==>
              ComputerMove(o, cfg, s, e, pick) == Handled(s.(thinking := false), e, NoMoveAvailable)
    ensures ComputerMove(o, cfg, s, e, pick).outcome == Moved ==>
              && |o.sanMoves(e.fen)| > 0
              && o.play(e.fen, San(o.sanMoves(e.fen)[pick % |o.sanMoves(e.fen)|])).Some?
    ensures ComputerToMove(cfg, o.gameOver(e.fen), o.turn(e.fen)) && |o.sanMoves(e.fen)| > 0 ==>
              var moves := o.sanMoves(e.fen);
              var m := San(moves[pick % |moves|]);
              var r := ComputerMove(o, cfg, s, e, pick);
              && (o.play(e.fen, m).None? ==> r == Handled(s.(thinking := false), e, SnappedBack))
              && (o.play(e.fen, m).Some? ==>
                    var q := Refresh(o, s.(thinking := true), Successor(o, e, m));
                    && r.engine == q.engine
                    && (r.outcome == Diverged <==> q.outcome == Hung)
                    && (q.outcome != Hung ==> r.outcome == Moved)
                    && (r.outcome == Diverged ==> r.ui == q.ui)
                    && (r.outcome == Moved ==> r.ui == q.ui.(thinking := false)))
    ensures ComputerToMove(cfg, o.gameOver(e.fen), o.turn(e.fen)) && ComputerMove(o, cfg, s, e, pick).outcome != Diverged ==>
              !ComputerMove(o, cfg, s, e, pick).ui.thinking
  {
  }

  /** The game-over effect (ChessBoard.tsx:212-216). */
  function GameOverCheck(o: Oracle, s: UiState, e: EngineState): UiState {
    if o.gameOver(e.fen) then s.(showGameOver := true) else s
  }

  /** The winner shown by the game-over dialog (ChessBoard.tsx:604-610): after checkmate the
      side not to move has won; otherwise there is none. */
  function Winner(checkmate: bool, turn: Color): (w: Option<Color>)
    ensures w.Some? <==> checkmate
    ensures w.Some? ==> w.value != turn
  {
    if checkmate then (if turn == White then Some(Black) else Some(White)) else None
  }

  /** The piece placement of the test position and the whole record ChessBoard.tsx:224 loads. */
  const TestPlacement := "rnb1kbnr/ppppqppp/8/8/8/8/PPPP1PPP/RNBQKBNR"
  const TestFen := TestPlacement + " w KQkq - 0 1"

  // ---------------------------------------------------------------------------
  // The component

  class ChessBoard {
    const config: Config
    const chess: Chess

    var board: Grid
    var selectedSquare: Option<Square>
    var hoverSquare: Option<Square>
    var legalMoves: seq<Square>
    var isComputerThinking: bool
    var showPromotionDialog: bool
    var pendingMove: Option<(Square, Square)>
    var showGameOverDialog: bool
    var kingInCheckSquare: Option<Square>
    var attackingSquares: seq<Square>
    var checkPathSquares: seq<Square>
    var moveHistory: seq<string>
    var lastMoveFrom: Option<Square>
    var lastMoveTo: Option<Square>
    var draggedPieceSquare: Option<Square>

    ghost predicate Valid()
      reads this, chess
    {
      chess.Valid()
    }

    function State(): UiState
      reads this
    {
      UiState(board, selectedSquare, hoverSquare, legalMoves, isComputerThinking, showPromotionDialog,
              pendingMove, showGameOverDialog, kingInCheckSquare, attackingSquares, checkPathSquares,
              moveHistory, lastMoveFrom, lastMoveTo, draggedPieceSquare)
    }

    function Engine(): EngineState
      reads chess
    {
      EngineState(chess.fen, chess.history)
    }

    constructor (rules: Oracle, config: Config)
      requires Sane(rules)
      ensures Valid() && fresh(chess) && chess.rules == rules && this.config == config
      ensures State() == Initial(rules) && Engine() == EngineState(rules.start, [])
    {
      this.config := config;
      var c := new Chess(rules);
      chess := c;
      board := c.Board();
      selectedSquare, hoverSquare, legalMoves := None, None, [];
      isComputerThinking, showPromotionDialog, pendingMove, showGameOverDialog := false, false, None, false;
      kingInCheckSquare, attackingSquares, checkPathSquares := None, [], [];
      moveHistory, lastMoveFrom, lastMoveTo, draggedPieceSquare := [], None, None, None;
    }

    method UpdateBoard() returns (outcome: UpdateOutcome)
      requires Valid()
      modifies this, chess
      ensures Valid()
      ensures Refreshed(State(), Engine(), outcome) == Refresh(chess.rules, old(State()), old(Engine()))
    {
      board := chess.Board();
      var history := chess.history;
      moveHistory := Sans(history);
      if |history| > 0 {
        var lastMove := history[|history| - 1];
        lastMoveFrom, lastMoveTo := Some(lastMove.from), Some(lastMove.to);
      } else {
        lastMoveFrom, lastMoveTo := None, None;
      }
      assert State() == ReadEngine(chess.rules, old(State()), Engine());
      outcome := HighlightCheck();
    }

    /** The check-highlighting half of updateBoard. */
    method HighlightCheck() returns (outcome: UpdateOutcome)
      requires Valid()
      modifies this, chess
      ensures Valid()
      ensures Refreshed(State(), Engine(), outcome) == Highlight(chess.rules, old(State()), old(Engine()))
    {
      if chess.IsCheck() && !chess.IsCheckmate() {
        var currentTurn := chess.Turn();
        var boardState := chess.Board();
        var king := FindKing(boardState, currentTurn);
        KingSquareIsFirst(boardState, currentTurn);
        if king.Some? {
          kingInCheckSquare := Some(SquareName(king.value.file, king.value.rank));
          outcome := ProbeAttackers(currentTurn, king.value);
        } else {
          outcome := Completed;
        }
      } else {
        kingInCheckSquare := None;
        attackingSquares := [];
        checkPathSquares := [];
        outcome := Completed;
      }
    }

    /** The load, scan and reload of updateBoard for the king on `king`. */
    method ProbeAttackers(currentTurn: Color, king: Coord) returns (outcome: UpdateOutcome)
      requires Valid() && OnBoardAt(king)
      requires chess.Board()[king.rank][king.file] == Some(Piece(King, currentTurn))
      modifies this, chess
      ensures Valid()
      ensures Refreshed(State(), Engine(), outcome) == Probe(chess.rules, old(State()), old(Engine()), currentTurn, king)
    {
      var rules := chess.rules;
      var boardState := chess.Board();
      var fen := chess.fen;
      var tempFen := SwapTurn(fen, currentTurn);
      var loaded := chess.Load(tempFen);
      if !loaded {
        var restored := chess.Load(fen);
        return Threw;
      }
      var attackers, pathSquares, hung := ScanAttackers(boardState, currentTurn, king, rules, tempFen);
      if hung {
        return Hung;
      }
      var restored := chess.Load(fen);
      attackingSquares := attackers;
      checkPathSquares := pathSquares;
      outcome := Completed;
    }

    /** chess.move followed, when accepted, by updateBoard. */
    method PlayAndRefresh(m: Move) returns (outcome: HandlerOutcome)
      requires Valid()
      modifies this, chess
      ensures Valid()
      ensures Handled(State(), Engine(), outcome) == Attempt(chess.rules, old(State()), old(Engine()), m)
    {
      var ok := chess.Move(m);
      if !ok {
        return SnappedBack;
      }
      var refreshed := UpdateBoard();
      outcome := if refreshed == Hung then Diverged else Moved;
    }

    method ResetGame()
      requires Valid()
      modifies this, chess
      ensures Valid()
      ensures State() == AfterReset(chess.rules, old(State()))
      ensures Engine() == EngineState(chess.rules.start, [])
    {
      chess.Reset();
      var opening := chess.Board();
      board, selectedSquare, hoverSquare, legalMoves := opening, None, None, [];
      isComputerThinking, showPromotionDialog, pendingMove, showGameOverDialog := false, false, None, false;
      moveHistory, lastMoveFrom, lastMoveTo, draggedPieceSquare := [], None, None, None;
    }

    method HandleDragStart(file: int, rank: int)
      requires Valid() && OnBoard(file, rank)
      modifies this
      ensures Valid()
      ensures State() == DragStart(chess.rules, config, old(State()), Engine(), file, rank)
    {
      if isComputerThinking {
        return;
      }
      var square := SquareName(file, rank);
      var piece := chess.Get(square);
      if config.vsComputer {
        var playerColor := if config.computerColor == White then Black else White;
        if piece.Some? && piece.value.color != playerColor {
          return;
        }
      }
      if piece.Some? && piece.value.color == chess.Turn() {
        draggedPieceSquare := Some(square);
        selectedSquare := Some(square);
        legalMoves := chess.Moves(square);
      }
    }

    method HandleDragEnd(toSquare: Option<Square>) returns (outcome: HandlerOutcome)
      requires Valid()
      modifies this, chess
      ensures Valid()
      ensures Handled(State(), Engine(), outcome) == DragEnd(chess.rules, old(State()), old(Engine()), toSquare)
    {
      var fromSquare := draggedPieceSquare;
      if toSquare.None? || fromSquare.None? || toSquare.value == fromSquare.value {
        ClearDragFields();
        return Cleared;
      }
      outcome := DropPiece(fromSquare.value, toSquare.value);
    }

    /** Clears the selection, hover, legal-move and drag slots and nothing else. */
    method ClearDragFields()
      requires Valid()
      modifies this
      ensures Valid()
      ensures State() == ClearDrag(old(State()))
    {
      selectedSquare, hoverSquare, legalMoves, draggedPieceSquare := None, None, [], None;
    }

    method DropPiece(from: Square, to: Square) returns (outcome: HandlerOutcome)
      requires Valid()
      modifies this, chess
      ensures Valid()
      ensures Handled(State(), Engine(), outcome) == Drop(chess.rules, old(State()), old(Engine()), from, to)
    {
      var piece := chess.Get(from);
      if IsPromotion(piece, to) {
        var moves := chess.Moves(from);
        if to in moves {
          ClearDragFields();
          pendingMove := Some((from, to));
          showPromotionDialog := true;
          return AwaitingPromotion;
        }
      }
      outcome := PlayAndRefresh(Coordinates(from, to, None));
      if outcome == Diverged {
        return;
      }
      ClearDragFields();
    }

    method HandlePromotionSelect(piece: Kind) returns (outcome: HandlerOutcome)
      requires Valid() && IsPromotionKind(piece)
      modifies this, chess
      ensures Valid()
      ensures Handled(State(), Engine(), outcome) == PromotionSelect(chess.rules, old(State()), old(Engine()), piece)
    {
      if pendingMove.None? {
        return Ignored;
      }
      outcome := PlayAndRefresh(Coordinates(pendingMove.value.0, pendingMove.value.1, Some(piece)));
      if outcome == Diverged {
        return;
      }
      showPromotionDialog := false;
      pendingMove := None;
    }

    method MakeComputerMove(pick: nat) returns (outcome: HandlerOutcome)
      requires Valid()
      modifies this, chess
      ensures Valid()
      ensures Handled(State(), Engine(), outcome) == ComputerMove(chess.rules, config, old(State()), old(Engine()), pick)
    {
      if !config.vsComputer || chess.IsGameOver() {
        return Ignored;
      }
      var currentTurn := chess.Turn();
      var shouldComputerMove := (config.computerColor == White && currentTurn == White)
                             || (config.computerColor == Black && currentTurn == Black);
      if !shouldComputerMove {
        return Ignored;
      }
      isComputerThinking := true;
      outcome := NoMoveAvailable;
      var moves := chess.SanMoves();
      if |moves| > 0 {
        outcome := PlayAndRefresh(San(moves[pick % |moves|]));
        if outcome == Diverged {
          return;
        }
      }
      isComputerThinking := false;
    }

    /** The test-position effect (ChessBoard.tsx:219-227): load TestFen, then updateBoard. A
        record the engine rejects throws out of the effect before the refresh. */
    method LoadTestPosition() returns (loaded: bool, outcome: UpdateOutcome)
      requires Valid()
      modifies this, chess
      ensures Valid()
      ensures loaded == chess.rules.loads(TestFen)
      ensures !loaded ==> State() == old(State()) && Engine() == old(Engine())
      ensures loaded ==>
                Refreshed(State(), Engine(), outcome)
                  == Refresh(chess.rules, old(State()), EngineState(TestFen, chess.rules.afterLoad(old(chess.history), TestFen)))
    {
      loaded := chess.Load(TestFen);
      outcome := Completed;
      if loaded {
        outcome := UpdateBoard();
      }
    }

    method CheckGameOver()
      requires Valid()
      modifies this
      ensures Valid()
      ensures State() == GameOverCheck(chess.rules, old(State()), Engine())
    {
      if chess.IsGameOver() {
        showGameOverDialog := true;
      }
    }
  }
}
