/**
 * Two positions worked through the check geometry: the built-in test position of
 * ChessBoard.tsx:219-227 (a queen on e7 checking the king on e1 along the open e-file), and a
 * knight check, where the path walk of ChessBoard.tsx:155-164 never reaches the king.
 */
module CheckScenarios {
  import opened Wrappers
  import opened Squares
  import opened Rules
  import opened Fen
  import opened CheckGeometry
  import opened Controller

  /** A stretch of one rank holding no attacker adds nothing to the scan. */
  lemma {:induction false} QuietSpan(g: Grid, turn: Color, o: Oracle, probe: string, king: Coord, rank: int, f1: int, f2: int)
    requires 0 <= rank < 8 && 0 <= f1 <= f2 <= 8 && OnBoardAt(king)
    requires forall f :: f1 <= f < f2 ==> !IsAttacker(g, turn, o, probe, king, f, rank)
    ensures ScanUpTo(g, turn, o, probe, king, rank, f2) == ScanUpTo(g, turn, o, probe, king, rank, f1)
    decreases f2 - f1
  {
    if f1 < f2 {
      QuietSpan(g, turn, o, probe, king, rank, f1, f2 - 1);
    }
  }

  /** A whole rank without attackers. */
  lemma QuietRank(g: Grid, turn: Color, o: Oracle, probe: string, king: Coord, rank: int)
    requires 0 <= rank < 8 && OnBoardAt(king)
    requires forall f :: 0 <= f < 8 ==> !IsAttacker(g, turn, o, probe, king, f, rank)
    ensures ScanUpTo(g, turn, o, probe, king, rank + 1, 0) == ScanUpTo(g, turn, o, probe, king, rank, 0)
  {
    QuietSpan(g, turn, o, probe, king, rank, 0, 8);
  }

  /** Consecutive ranks without attackers add nothing to the scan. */
  lemma {:induction false} QuietRanks(g: Grid, turn: Color, o: Oracle, probe: string, king: Coord, r1: int, r2: int)
    requires 0 <= r1 <= r2 <= 8 && OnBoardAt(king)
    requires forall f, r :: OnBoard(f, r) && r1 <= r < r2 ==> !IsAttacker(g, turn, o, probe, king, f, r)
    ensures ScanUpTo(g, turn, o, probe, king, r2, 0) == ScanUpTo(g, turn, o, probe, king, r1, 0)
    decreases r2 - r1
  {
    if r1 < r2 {
      QuietRanks(g, turn, o, probe, king, r1, r2 - 1);
      QuietRank(g, turn, o, probe, king, r2 - 1);
    }
  }

  /** With a single attacker on the board, the scan reports it, its path, and whether it is
      off the king's lines. */
  lemma SingleAttacker(g: Grid, turn: Color, o: Oracle, probe: string, king: Coord, a: Coord)
    requires OnBoardAt(king) && OnBoardAt(a)
    requires forall f, r :: OnBoard(f, r) ==> (IsAttacker(g, turn, o, probe, king, f, r) <==> Coord(f, r) == a)
    ensures Geometry(g, turn, o, probe, king)
              == Scan([SquareName(a.file, a.rank)], GuardedPath(a, king), !Aligned(a, king))
  {
    QuietRanks(g, turn, o, probe, king, 0, a.rank);
    QuietSpan(g, turn, o, probe, king, a.rank, 0, a.file);
    QuietSpan(g, turn, o, probe, king, a.rank, a.file + 1, 8);
    QuietRanks(g, turn, o, probe, king, a.rank + 1, 8);
    assert ScanUpTo(g, turn, o, probe, king, a.rank, a.file + 1)
             == Scan([SquareName(a.file, a.rank)], GuardedPath(a, king), !Aligned(a, king));
  }


  /** The board of TestFen, rank 8 first. */
  const TestGrid: Grid := [
    [Some(Piece(Rook, Black)), Some(Piece(Knight, Black)), Some(Piece(Bishop, Black)), None,
     Some(Piece(King, Black)), Some(Piece(Bishop, Black)), Some(Piece(Knight, Black)), Some(Piece(Rook, Black))],
    [Some(Piece(Pawn, Black)), Some(Piece(Pawn, Black)), Some(Piece(Pawn, Black)), Some(Piece(Pawn, Black)),
     Some(Piece(Queen, Black)), Some(Piece(Pawn, Black)), Some(Piece(Pawn, Black)), Some(Piece(Pawn, Black))],
    [None, None, None, None, None, None, None, None],
    [None, None, None, None, None, None, None, None],
    [None, None, None, None, None, None, None, None],
    [None, None, None, None, None, None, None, None],
    [Some(Piece(Pawn, White)), Some(Piece(Pawn, White)), Some(Piece(Pawn, White)), Some(Piece(Pawn, White)),
     None, Some(Piece(Pawn, White)), Some(Piece(Pawn, White)), Some(Piece(Pawn, White))],
    [Some(Piece(Rook, White)), Some(Piece(Knight, White)), Some(Piece(Bishop, White)), Some(Piece(Queen, White)),
     Some(Piece(King, White)), Some(Piece(Bishop, White)), Some(Piece(Knight, White)), Some(Piece(Rook, White))]]

  /** The six FEN fields of the test position with active colour `turn`. */
  function TestFields(turn: string): seq<string> {
    [TestPlacement, turn, "KQkq", "-", "0", "1"]
  }

  lemma JoinTestFields(turn: string)
    ensures Join(TestFields(turn)) == TestPlacement + " " + turn + " KQkq - 0 1"
  {
    var fields := TestFields(turn);
    assert Join(fields[5..]) == "1";
    assert Join(fields[4..]) == "0 1";
    assert Join(fields[3..]) == "- 0 1";
    assert Join(fields[2..]) == "KQkq - 0 1";
    assert Join(fields[1..]) == turn + " KQkq - 0 1";
  }

  lemma TestPlacementHasNoSpace()
    ensures ' ' !in TestPlacement
  {
  }

  /** The test position is the join of its six space-free fields. */
  lemma TestFenFields()
    ensures TestFen == Join(TestFields("w")) && NoSpaces(TestFields("w"))
  {
    TestPlacementHasNoSpace();
    JoinTestFields("w");
  }

  /** The probe position of the test position is the same placement with black to move. */
  lemma TestProbe()
    ensures SwapTurn(TestFen, White) == ProbeFen
  {
    TestFenFields();
    SwapTurnJoin(TestFields("w"), White);
    assert TestFields("w")[1 := TurnField(Opponent(White))] == TestFields("b");
    JoinTestFields("b");
  }

  /** The only white king of the test position stands on e1. */
  lemma TestKing()
    ensures KingSquare(TestGrid, White) == Some(Coord(4, 7))
  {
    var g := TestGrid;
    KingSquareIsFirst(g, White);
    assert IsKingOf(g, White, 4, 7);
    forall f, r | OnBoard(f, r) && IsKingOf(g, White, f, r) ensures (f, r) == (4, 7) {
      assert g[r][f] == Some(Piece(King, White));
    }
  }

  /** The walk from e7 toward e1. */
  lemma TestPath()
    ensures GuardedPath(Coord(4, 1), Coord(4, 7)) == ["e6", "e5", "e4", "e3", "e2"]
  {
    var a, k := Coord(4, 1), Coord(4, 7);
    var path := GuardedPath(a, k);
    assert Aligned(a, k) && Distance(a, k) == 6;
    assert path[0] == SquareName(4, 2);
    assert path[1] == SquareName(4, 3);
    assert path[2] == SquareName(4, 4);
    assert path[3] == SquareName(4, 5);
    assert path[4] == SquareName(4, 6);
  }

  /** The hypothesis of TestPositionHighlights, read as the attacker test of the scan. */
  lemma TestAttackerIsE7(o: Oracle, probe: string)
    requires "e1" in o.destinations(probe, "e7")
    requires forall f, r :: OnBoard(f, r) && (f, r) != (4, 1) ==> "e1" !in o.destinations(probe, SquareName(f, r))
    ensures forall f, r :: OnBoard(f, r) ==>
              (IsAttacker(TestGrid, White, o, probe, Coord(4, 7), f, r) <==> Coord(f, r) == Coord(4, 1))
  {
    assert SquareName(4, 7) == "e1";
    assert SquareName(4, 1) == "e7";
    assert TestGrid[1][4] == Some(Piece(Queen, Black));
  }

  /** In the test position, if the queen on e7 is the only piece whose moves reach e1, the
      check highlighting marks e7 as the attacker and e6 to e2, from the queen toward the
      king, as the path. */
  lemma TestPositionHighlights(o: Oracle, probe: string)
    requires "e1" in o.destinations(probe, "e7")
    requires forall f, r :: OnBoard(f, r) && (f, r) != (4, 1) ==> "e1" !in o.destinations(probe, SquareName(f, r))
    ensures KingSquare(TestGrid, White) == Some(Coord(4, 7))
    ensures Geometry(TestGrid, White, o, probe, Coord(4, 7)) == Scan(["e7"], ["e6", "e5", "e4", "e3", "e2"], false)
  {
    TestKing();
    TestPath();
    TestAttackerIsE7(o, probe);
    SingleAttacker(TestGrid, White, o, probe, Coord(4, 7), Coord(4, 1));
    assert SquareName(4, 1) == "e7";
  }

  /** The record updateBoard loads to probe the test position: black to move. */
  const ProbeFen := TestPlacement + " b KQkq - 0 1"

  /** The test-position effect (ChessBoard.tsx:219-226) refreshes the loaded record: when the
      engine reads TestFen as the grid above with white to move, in check and not mated, and in
      the probe record only the e7 queen reaches e1, the refresh marks e1, lists e7 as the
      attacker and e6 to e2 as the path, and leaves TestFen loaded. */
  lemma TestPositionRefresh(o: Oracle, s: UiState, e: EngineState)
    requires e.fen == TestFen
    requires o.board(TestFen) == TestGrid && o.turn(TestFen) == White
    requires o.inCheck(TestFen) && !o.checkmate(TestFen)
    requires o.loads(ProbeFen)
    requires "e1" in o.destinations(ProbeFen, "e7")
    requires forall f, r :: OnBoard(f, r) && (f, r) != (4, 1) ==> "e1" !in o.destinations(ProbeFen, SquareName(f, r))
    ensures var r := Refresh(o, s, e);
            && r.outcome == Completed && r.engine.fen == TestFen
            && r.ui.kingInCheck == Some("e1")
            && r.ui.attacking == ["e7"]
            && r.ui.checkPath == ["e6", "e5", "e4", "e3", "e2"]
  {
    TestProbe();
    TestPositionHighlights(o, ProbeFen);
    assert SquareName(4, 7) == "e1";
  }

  /** A knight on f3 checking the king on e1 is found by the attacker scan, and the walk from
      it toward the king never arrives: the source's updateBoard does not return. */
  lemma KnightCheckHangs(g: Grid, o: Oracle, probe: string)
    requires g[7][4] == Some(Piece(King, White)) && g[5][5] == Some(Piece(Knight, Black))
    requires "e1" in o.destinations(probe, "f3")
    ensures Geometry(g, White, o, probe, Coord(4, 7)).hung
    ensures forall t :: t >= 0 ==> Cursor(Coord(5, 5), Coord(4, 7), t) != Coord(4, 7)
  {
    assert SquareName(4, 7) == "e1";
    assert SquareName(5, 5) == "f3";
    assert IsAttacker(g, White, o, probe, Coord(4, 7), 5, 5) && !Aligned(Coord(5, 5), Coord(4, 7));
    GeometryExactly(g, White, o, probe, Coord(4, 7));
    forall t | t >= 0 ensures Cursor(Coord(5, 5), Coord(4, 7), t) != Coord(4, 7) {
      UnalignedWalkNeverReachesKing(Coord(5, 5), Coord(4, 7), t);
    }
  }

  /** In a position whose only white king is on e1, checked by a knight on f3 and not mated,
      the refresh of updateBoard ends in the walk that never returns, leaving the probe
      position loaded. */
  lemma KnightCheckRefreshDiverges(o: Oracle, s: UiState, e: EngineState)
    requires o.turn(e.fen) == White && o.inCheck(e.fen) && !o.checkmate(e.fen)
    requires o.board(e.fen)[7][4] == Some(Piece(King, White)) && o.board(e.fen)[5][5] == Some(Piece(Knight, Black))
    requires forall f, r :: OnBoard(f, r) && IsKingOf(o.board(e.fen), White, f, r) ==> (f, r) == (4, 7)
    requires o.loads(SwapTurn(e.fen, White))
    requires "e1" in o.destinations(SwapTurn(e.fen, White), "f3")
    ensures Refresh(o, s, e).outcome == Hung
    ensures Refresh(o, s, e).engine.fen == SwapTurn(e.fen, White)
  {
    var g := o.board(e.fen);
    KingSquareIsFirst(g, White);
    assert IsKingOf(g, White, 4, 7);
    KnightCheckHangs(g, o, SwapTurn(e.fen, White));
  }
}
