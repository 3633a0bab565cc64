/**
 * The check geometry computed inside `updateBoard`
 * (components/chess/ChessBoard.tsx): the king of the side to move, the opposing
 * pieces whose move list reaches it, and the squares between each attacker and
 * the king. The scans follow the source's rank-major order: rank index 0 (rank 8)
 * first, and within a rank file a to file h.
 */
module CheckGeometry {
  import opened Wrappers
  import opened Squares
  import opened Rules

  datatype Coord = Coord(file: int, rank: int)

  predicate OnBoardAt(c: Coord) {
    OnBoard(c.file, c.rank)
  }

  /** (r1, f1) comes strictly before (r2, f2) in the scan order. */
  predicate ScanBefore(r1: int, f1: int, r2: int, f2: int) {
    r1 < r2 || (r1 == r2 && f1 < f2)
  }

  // ---------------------------------------------------------------------------
  // The king scan

  predicate IsKingOf(g: Grid, turn: Color, file: int, rank: int)
    requires OnBoard(file, rank)
  {
    g[rank][file].Some? && g[rank][file].value.kind == King && g[rank][file].value.color == turn
  }

  /** The first square at or after (rank, file) in scan order holding a king of `turn`. */
  function KingFrom(g: Grid, turn: Color, rank: int, file: int): Option<Coord>
    requires 0 <= rank <= 8 && 0 <= file <= 8
    decreases 8 - rank, 8 - file
  {
    if rank == 8 then None
    else if file == 8 then KingFrom(g, turn, rank + 1, 0)
    else if IsKingOf(g, turn, file, rank) then Some(Coord(file, rank))
    else KingFrom(g, turn, rank, file + 1)
  }

  function KingSquare(g: Grid, turn: Color): Option<Coord> {
    KingFrom(g, turn, 0, 0)
  }

  lemma {:induction false} KingFromIsFirst(g: Grid, turn: Color, rank: int, file: int)
    requires 0 <= rank <= 8 && 0 <= file <= 8
    ensures KingFrom(g, turn, rank, file).Some? ==>
              var k := KingFrom(g, turn, rank, file).value;
              && OnBoardAt(k) && IsKingOf(g, turn, k.file, k.rank)
              && !ScanBefore(k.rank, k.file, rank, file)
              && forall r, f :: (OnBoard(f, r) && !ScanBefore(r, f, rank, file) && ScanBefore(r, f, k.rank, k.file))
                                  ==> !IsKingOf(g, turn, f, r)
    ensures KingFrom(g, turn, rank, file).None? ==>
              forall r, f :: OnBoard(f, r) && !ScanBefore(r, f, rank, file) ==> !IsKingOf(g, turn, f, r)
    decreases 8 - rank, 8 - file
  {
    if rank == 8 {
    } else if file == 8 {
      KingFromIsFirst(g, turn, rank + 1, 0);
    } else if IsKingOf(g, turn, file, rank) {
    } else {
      KingFromIsFirst(g, turn, rank, file + 1);
    }
  }

  /** The king found is the first square in scan order holding a king of the side to move;
      none is found exactly when no square holds one. */
  lemma KingSquareIsFirst(g: Grid, turn: Color)
    ensures KingSquare(g, turn).Some? ==>
              var k := KingSquare(g, turn).value;
              && OnBoardAt(k) && IsKingOf(g, turn, k.file, k.rank)
              && forall r, f :: OnBoard(f, r) && ScanBefore(r, f, k.rank, k.file) ==> !IsKingOf(g, turn, f, r)
    ensures KingSquare(g, turn).None? <==>
              forall r, f :: OnBoard(f, r) ==> !IsKingOf(g, turn, f, r)
  {
    KingFromIsFirst(g, turn, 0, 0);
  }

  /** The nested loop with breaks at ChessBoard.tsx:105-114. */
  method FindKing(g: Grid, turn: Color) returns (king: Option<Coord>)
    ensures king == KingSquare(g, turn)
  {
    king := None;
    var rank := 0;
    while rank < 8
      invariant 0 <= rank <= 8
      invariant king.None? && KingFrom(g, turn, rank, 0) == KingSquare(g, turn)
    {
      var file := 0;
      while file < 8
        invariant 0 <= file <= 8
        invariant king.None? && KingFrom(g, turn, rank, file) == KingSquare(g, turn)
      {
        var piece := g[rank][file];
        if piece.Some? && piece.value.kind == King && piece.value.color == turn {
          king := Some(Coord(file, rank));
          break;
        }
        file := file + 1;
      }
      if king.Some? {
        break;
      }
      rank := rank + 1;
    }
  }

  // ---------------------------------------------------------------------------
  // Lines of attack and the path walk

  function Abs(x: int): nat {
    if x < 0 then -x else x
  }

  function Max(a: nat, b: nat): nat {
    if a < b then b else a
  }

  /** Math.sign on integers. */
  function Sign(x: int): int {
    if x > 0 then 1 else if x < 0 then -1 else 0
  }

  /** The number of king steps from a to k (Chebyshev distance). */
  function Distance(a: Coord, k: Coord): nat {
    Max(Abs(k.file - a.file), Abs(k.rank - a.rank))
  }

  /** Two distinct squares on one rank, file or diagonal. */
  predicate Aligned(a: Coord, k: Coord) {
    a != k && (a.file == k.file || a.rank == k.rank || Abs(k.file - a.file) == Abs(k.rank - a.rank))
  }

  /** x + t * dir for a direction dir in {-1, 0, 1}. */
  function Offset(x: int, dir: int, t: int): int {
    if dir > 0 then x + t else if dir < 0 then x - t else x
  }

  /** Where the walk from a toward k stands after t unit steps. */
  function Cursor(a: Coord, k: Coord, t: int): Coord {
    Coord(Offset(a.file, Sign(k.file - a.file), t), Offset(a.rank, Sign(k.rank - a.rank), t))
  }

  predicate Within(x: int, a: int, b: int) {
    (a <= x <= b) || (b <= x <= a)
  }

  predicate StrictlyInside(x: int, a: int, b: int) {
    (a < x < b) || (b < x < a)
  }

  /** p lies on the line from a to k, strictly between them. */
  predicate StrictlyBetween(a: Coord, k: Coord, p: Coord) {
    if a.file == k.file then p.file == a.file && StrictlyInside(p.rank, a.rank, k.rank)
    else if a.rank == k.rank then p.rank == a.rank && StrictlyInside(p.file, a.file, k.file)
    else
      && StrictlyInside(p.file, a.file, k.file) && StrictlyInside(p.rank, a.rank, k.rank)
      && Abs(p.file - a.file) == Abs(p.rank - a.rank)
  }

  /** On an aligned pair the walk meets the king after exactly Distance steps, stays in the
      box spanned by the two squares, and the t-th square is t steps from a. */
  lemma CursorOnAlignedLine(a: Coord, k: Coord, t: int)
    requires Aligned(a, k) && 0 <= t <= Distance(a, k)
    ensures Cursor(a, k, t) == k <==> t == Distance(a, k)
    ensures Within(Cursor(a, k, t).file, a.file, k.file) && Within(Cursor(a, k, t).rank, a.rank, k.rank)
    ensures Distance(a, Cursor(a, k, t)) == t && Distance(Cursor(a, k, t), k) == Distance(a, k) - t
    ensures 0 < t < Distance(a, k) ==> StrictlyBetween(a, k, Cursor(a, k, t))
  {
  }

  /** One more step moves the cursor by the direction vector. */
  lemma CursorStep(a: Coord, k: Coord, t: int)
    ensures Cursor(a, k, t + 1).file == Cursor(a, k, t).file + Sign(k.file - a.file)
    ensures Cursor(a, k, t + 1).rank == Cursor(a, k, t).rank + Sign(k.rank - a.rank)
  {
  }

  lemma CursorOnBoard(a: Coord, k: Coord, t: int)
    requires OnBoardAt(a) && OnBoardAt(k) && Aligned(a, k) && 0 <= t <= Distance(a, k)
    ensures OnBoardAt(Cursor(a, k, t))
  {
    CursorOnAlignedLine(a, k, t);
  }

  /** The name of the square the walk stands on after t steps. */
  function CursorName(a: Coord, k: Coord, t: int): Square
    requires OnBoardAt(a) && OnBoardAt(k) && Aligned(a, k) && 0 <= t <= Distance(a, k)
  {
    CursorOnBoard(a, k, t);
    SquareName(Cursor(a, k, t).file, Cursor(a, k, t).rank)
  }

  /** The squares strictly between attacker a and king k, from a toward k. */
  function PathSquares(a: Coord, k: Coord): (path: seq<Square>)
    requires OnBoardAt(a) && OnBoardAt(k) && Aligned(a, k)
    ensures |path| == Distance(a, k) - 1
    ensures forall i :: 0 <= i < |path| ==> path[i] == CursorName(a, k, i + 1)
  {
    seq(Distance(a, k) - 1, i requires 0 <= i < Distance(a, k) - 1 => CursorName(a, k, i + 1))
  }

  /** Every path square lies strictly between attacker and king. */
  lemma PathSquareSound(a: Coord, k: Coord, p: Coord)
    requires OnBoardAt(a) && OnBoardAt(k) && Aligned(a, k) && OnBoardAt(p)
    requires SquareName(p.file, p.rank) in PathSquares(a, k)
    ensures StrictlyBetween(a, k, p)
  {
    var path := PathSquares(a, k);
    var i :| 0 <= i < |path| && path[i] == SquareName(p.file, p.rank);
    CursorOnAlignedLine(a, k, i + 1);
    var c := Cursor(a, k, i + 1);
    SquareNameInjective(c.file, c.rank, p.file, p.rank);
  }

  /** Every square strictly between attacker and king is on the path. */
  lemma PathSquareComplete(a: Coord, k: Coord, p: Coord)
    requires OnBoardAt(a) && OnBoardAt(k) && Aligned(a, k) && OnBoardAt(p)
    requires StrictlyBetween(a, k, p)
    ensures SquareName(p.file, p.rank) in PathSquares(a, k)
  {
    var t := if a.file == k.file then Abs(p.rank - a.rank) else Abs(p.file - a.file);
    assert 0 < t < Distance(a, k);
    assert Cursor(a, k, t) == p;
    assert PathSquares(a, k)[t - 1] == SquareName(p.file, p.rank);
  }

  /** A square is on the path exactly when it lies strictly between attacker and king. */
  lemma PathSquareMembership(a: Coord, k: Coord, p: Coord)
    requires OnBoardAt(a) && OnBoardAt(k) && Aligned(a, k) && OnBoardAt(p)
    ensures SquareName(p.file, p.rank) in PathSquares(a, k) <==> StrictlyBetween(a, k, p)
  {
    if SquareName(p.file, p.rank) in PathSquares(a, k) {
      PathSquareSound(a, k, p);
    }
    if StrictlyBetween(a, k, p) {
      PathSquareComplete(a, k, p);
    }
  }

  /** The path is ordered from the attacker toward the king: its i-th square is i + 1 king
      steps from the attacker; an adjacent attacker contributes no square. */
  lemma PathOrderedFromAttacker(a: Coord, k: Coord)
    requires OnBoardAt(a) && OnBoardAt(k) && Aligned(a, k)
    ensures forall t :: 0 < t < Distance(a, k) ==>
              PathSquares(a, k)[t - 1] == CursorName(a, k, t)
              && Distance(a, Cursor(a, k, t)) == t && Distance(Cursor(a, k, t), k) == Distance(a, k) - t
    ensures Distance(a, k) == 1 ==> PathSquares(a, k) == []
  {
    forall t | 0 < t < Distance(a, k)
      ensures Distance(a, Cursor(a, k, t)) == t && Distance(Cursor(a, k, t), k) == Distance(a, k) - t
    {
      CursorOnAlignedLine(a, k, t);
    }
  }

  /** The while loop at ChessBoard.tsx:155-164. It terminates only on an aligned pair. */
  method WalkPath(a: Coord, k: Coord) returns (path: seq<Square>)
    requires OnBoardAt(a) && OnBoardAt(k) && Aligned(a, k)
    ensures path == PathSquares(a, k)
  {
    var fileDir := Sign(k.file - a.file);
    var rankDir := Sign(k.rank - a.rank);
    var currentFile := a.file + fileDir;
    var currentRank := a.rank + rankDir;
    path := [];
    CursorStep(a, k, 0);
    ghost var full := PathSquares(a, k);
    ghost var t := 1;
    while currentFile != k.file || currentRank != k.rank
      invariant 1 <= t <= Distance(a, k) && |path| == t - 1
      invariant Coord(currentFile, currentRank) == Cursor(a, k, t)
      invariant path == full[..t - 1]
      decreases Distance(a, k) - t
    {
      CursorOnAlignedLine(a, k, t);
      assert full[t - 1] == SquareName(currentFile, currentRank);
      path := path + [SquareName(currentFile, currentRank)];
      assert path == full[..t];
      CursorStep(a, k, t);
      currentFile := currentFile + fileDir;
      currentRank := currentRank + rankDir;
      t := t + 1;
    }
    CursorOnAlignedLine(a, k, t);
    assert full[..t - 1] == full;
  }

  /** From a square on no common line with the king the walk never lands on the king: the loop
      at ChessBoard.tsx:158 does not terminate (a knight giving check). */
  lemma UnalignedWalkNeverReachesKing(a: Coord, k: Coord, t: int)
    requires a != k && !Aligned(a, k) && t >= 0
    ensures Cursor(a, k, t) != k
  {
  }

  /** The walk as evidently intended: a non-aligned attacker contributes no square. */
  function GuardedPath(a: Coord, k: Coord): (path: seq<Square>)
    requires OnBoardAt(a) && OnBoardAt(k)
    ensures !Aligned(a, k) ==> path == []
    ensures Aligned(a, k) ==> path == PathSquares(a, k)
  {
    if Aligned(a, k) then PathSquares(a, k) else []
  }

  lemma GuardedPathMembership(a: Coord, k: Coord, p: Coord)
    requires OnBoardAt(a) && OnBoardAt(k) && OnBoardAt(p)
    ensures SquareName(p.file, p.rank) in GuardedPath(a, k) <==> Aligned(a, k) && StrictlyBetween(a, k, p)
  {
    if Aligned(a, k) {
      PathSquareMembership(a, k, p);
    }
  }

  // ---------------------------------------------------------------------------
  // The attacker scan

  /** A piece of the other side whose move list, in the probe position, reaches the king. */
  predicate IsAttacker(g: Grid, turn: Color, o: Oracle, probe: string, king: Coord, file: int, rank: int)
    requires OnBoard(file, rank) && OnBoardAt(king)
  {
    && g[rank][file].Some? && g[rank][file].value.color != turn
    && SquareName(king.file, king.rank) in o.destinations(probe, SquareName(file, rank))
  }

  /** Attackers and path squares collected so far, and whether an attacker off every line of
      the king was met (where the source's walk does not terminate). */
  datatype Scan = Scan(attackers: seq<Square>, path: seq<Square>, hung: bool)

  predicate ScanDomain(rank: int, file: int) {
    (0 <= rank < 8 && 0 <= file <= 8) || (rank == 8 && file == 0)
  }

  /** The attackers the scan lists strictly before (rank, file). */
  function AttackersUpTo(g: Grid, turn: Color, o: Oracle, probe: string, king: Coord, rank: int, file: int): seq<Square>
    requires ScanDomain(rank, file) && OnBoardAt(king)
    decreases rank, file
  {
    if file == 0 then
      if rank == 0 then [] else AttackersUpTo(g, turn, o, probe, king, rank - 1, 8)
    else
      var s := AttackersUpTo(g, turn, o, probe, king, rank, file - 1);
      if IsAttacker(g, turn, o, probe, king, file - 1, rank) then s + [SquareName(file - 1, rank)] else s
  }

  /** The path squares the scan collects strictly before (rank, file). */
  function PathUpTo(g: Grid, turn: Color, o: Oracle, probe: string, king: Coord, rank: int, file: int): seq<Square>
    requires ScanDomain(rank, file) && OnBoardAt(king)
    decreases rank, file
  {
    if file == 0 then
      if rank == 0 then [] else PathUpTo(g, turn, o, probe, king, rank - 1, 8)
    else
      var s := PathUpTo(g, turn, o, probe, king, rank, file - 1);
      if IsAttacker(g, turn, o, probe, king, file - 1, rank) then s + GuardedPath(Coord(file - 1, rank), king) else s
  }

  /** Whether an attacker strictly before (rank, file) is on no line of the king. */
  predicate HungUpTo(g: Grid, turn: Color, o: Oracle, probe: string, king: Coord, rank: int, file: int)
    requires ScanDomain(rank, file) && OnBoardAt(king)
    decreases rank, file
  {
    if file == 0 then
      rank != 0 && HungUpTo(g, turn, o, probe, king, rank - 1, 8)
    else
      HungUpTo(g, turn, o, probe, king, rank, file - 1)
      || (IsAttacker(g, turn, o, probe, king, file - 1, rank) && !Aligned(Coord(file - 1, rank), king))
  }

  /** The scan's result over the squares strictly before (rank, file). */
  function ScanUpTo(g: Grid, turn: Color, o: Oracle, probe: string, king: Coord, rank: int, file: int): Scan
    requires ScanDomain(rank, file) && OnBoardAt(king)
  {
    Scan(AttackersUpTo(g, turn, o, probe, king, rank, file), PathUpTo(g, turn, o, probe, king, rank, file),
         HungUpTo(g, turn, o, probe, king, rank, file))
  }

  /** The check geometry of the whole board. */
  function Geometry(g: Grid, turn: Color, o: Oracle, probe: string, king: Coord): Scan
    requires OnBoardAt(king)
  {
    ScanUpTo(g, turn, o, probe, king, 8, 0)
  }

  /** A square is listed by the scan so far exactly when it holds an attacker and comes before
      the scan position. */
  lemma {:induction false} ScanAttackersMembership(g: Grid, turn: Color, o: Oracle, probe: string, king: Coord,
                                                   rank: int, file: int, f: int, r: int)
    requires ScanDomain(rank, file) && OnBoardAt(king) && OnBoard(f, r)
    ensures (SquareName(f, r) in AttackersUpTo(g, turn, o, probe, king, rank, file))
            <==> (ScanBefore(r, f, rank, file) && IsAttacker(g, turn, o, probe, king, f, r))
    decreases rank, file
  {
    if file == 0 {
      if rank > 0 {
        ScanAttackersMembership(g, turn, o, probe, king, rank - 1, 8, f, r);
      }
    } else {
      ScanAttackersMembership(g, turn, o, probe, king, rank, file - 1, f, r);
      if (f, r) != (file - 1, rank) && SquareName(f, r) == SquareName(file - 1, rank) {
        SquareNameInjective(f, r, file - 1, rank);
      }
    }
  }

  /** Every listed attacker is a well-formed square name. */
  lemma {:induction false} ScanAttackersAreSquares(g: Grid, turn: Color, o: Oracle, probe: string, king: Coord, rank: int, file: int)
    requires ScanDomain(rank, file) && OnBoardAt(king)
    ensures forall sq :: sq in AttackersUpTo(g, turn, o, probe, king, rank, file) ==> IsSquare(sq)
    decreases rank, file
  {
    if file == 0 {
      if rank > 0 {
        ScanAttackersAreSquares(g, turn, o, probe, king, rank - 1, 8);
      }
    } else {
      ScanAttackersAreSquares(g, turn, o, probe, king, rank, file - 1);
      SquareNameRoundTrip(file - 1, rank);
    }
  }

  /** Some attacker strictly before (rank, file) is on no line of the king. */
  ghost predicate UnalignedBefore(g: Grid, turn: Color, o: Oracle, probe: string, king: Coord, rank: int, file: int)
    requires OnBoardAt(king)
  {
    exists f, r :: OnBoard(f, r) && ScanBefore(r, f, rank, file)
                   && IsAttacker(g, turn, o, probe, king, f, r) && !Aligned(Coord(f, r), king)
  }

  lemma UnalignedBeforeStep(g: Grid, turn: Color, o: Oracle, probe: string, king: Coord, rank: int, file: int)
    requires 0 <= rank < 8 && 0 < file <= 8 && OnBoardAt(king)
    ensures UnalignedBefore(g, turn, o, probe, king, rank, file) <==>
              || UnalignedBefore(g, turn, o, probe, king, rank, file - 1)
              || (IsAttacker(g, turn, o, probe, king, file - 1, rank) && !Aligned(Coord(file - 1, rank), king))
  {
    if UnalignedBefore(g, turn, o, probe, king, rank, file) {
      var f, r :| OnBoard(f, r) && ScanBefore(r, f, rank, file)
                  && IsAttacker(g, turn, o, probe, king, f, r) && !Aligned(Coord(f, r), king);
      if (f, r) != (file - 1, rank) {
        assert ScanBefore(r, f, rank, file - 1);
      }
    }
  }

  lemma UnalignedBeforeWrap(g: Grid, turn: Color, o: Oracle, probe: string, king: Coord, rank: int)
    requires 0 < rank <= 8 && OnBoardAt(king)
    ensures UnalignedBefore(g, turn, o, probe, king, rank, 0) <==> UnalignedBefore(g, turn, o, probe, king, rank - 1, 8)
  {
    if UnalignedBefore(g, turn, o, probe, king, rank, 0) {
      var f, r :| OnBoard(f, r) && ScanBefore(r, f, rank, 0)
                  && IsAttacker(g, turn, o, probe, king, f, r) && !Aligned(Coord(f, r), king);
      assert ScanBefore(r, f, rank - 1, 8);
    }
    if UnalignedBefore(g, turn, o, probe, king, rank - 1, 8) {
      var f, r :| OnBoard(f, r) && ScanBefore(r, f, rank - 1, 8)
                  && IsAttacker(g, turn, o, probe, king, f, r) && !Aligned(Coord(f, r), king);
      assert ScanBefore(r, f, rank, 0);
    }
  }

  lemma {:induction false} ScanHungExactly(g: Grid, turn: Color, o: Oracle, probe: string, king: Coord, rank: int, file: int)
    requires ScanDomain(rank, file) && OnBoardAt(king)
    ensures HungUpTo(g, turn, o, probe, king, rank, file) <==> UnalignedBefore(g, turn, o, probe, king, rank, file)
    decreases rank, file
  {
    if file == 0 {
      if rank > 0 {
        ScanHungExactly(g, turn, o, probe, king, rank - 1, 8);
        UnalignedBeforeWrap(g, turn, o, probe, king, rank);
      }
    } else {
      ScanHungExactly(g, turn, o, probe, king, rank, file - 1);
      UnalignedBeforeStep(g, turn, o, probe, king, rank, file);
    }
  }

  /** Some attacker strictly before (rank, file) is aligned with the king and has p strictly
      between them. */
  ghost predicate BlocksBefore(g: Grid, turn: Color, o: Oracle, probe: string, king: Coord, rank: int, file: int, p: Coord)
    requires OnBoardAt(king)
  {
    exists f, r :: OnBoard(f, r) && ScanBefore(r, f, rank, file)
                   && IsAttacker(g, turn, o, probe, king, f, r)
                   && Aligned(Coord(f, r), king) && StrictlyBetween(Coord(f, r), king, p)
  }

  /** How BlocksBefore grows by one square of the scan. */
  lemma BlocksBeforeStep(g: Grid, turn: Color, o: Oracle, probe: string, king: Coord, rank: int, file: int, p: Coord)
    requires 0 <= rank < 8 && 0 < file <= 8 && OnBoardAt(king)
    ensures BlocksBefore(g, turn, o, probe, king, rank, file, p) <==>
              || BlocksBefore(g, turn, o, probe, king, rank, file - 1, p)
              || (IsAttacker(g, turn, o, probe, king, file - 1, rank)
                  && Aligned(Coord(file - 1, rank), king) && StrictlyBetween(Coord(file - 1, rank), king, p))
  {
    if BlocksBefore(g, turn, o, probe, king, rank, file, p) {
      var f, r :| OnBoard(f, r) && ScanBefore(r, f, rank, file)
                  && IsAttacker(g, turn, o, probe, king, f, r)
                  && Aligned(Coord(f, r), king) && StrictlyBetween(Coord(f, r), king, p);
      if (f, r) != (file - 1, rank) {
        assert ScanBefore(r, f, rank, file - 1);
      }
    }
  }

  /** Passing the end of a rank changes nothing. */
  lemma BlocksBeforeWrap(g: Grid, turn: Color, o: Oracle, probe: string, king: Coord, rank: int, p: Coord)
    requires 0 < rank <= 8 && OnBoardAt(king)
    ensures BlocksBefore(g, turn, o, probe, king, rank, 0, p) <==> BlocksBefore(g, turn, o, probe, king, rank - 1, 8, p)
  {
    if BlocksBefore(g, turn, o, probe, king, rank, 0, p) {
      var f, r :| OnBoard(f, r) && ScanBefore(r, f, rank, 0)
                  && IsAttacker(g, turn, o, probe, king, f, r)
                  && Aligned(Coord(f, r), king) && StrictlyBetween(Coord(f, r), king, p);
      assert ScanBefore(r, f, rank - 1, 8);
    }
    if BlocksBefore(g, turn, o, probe, king, rank - 1, 8, p) {
      var f, r :| OnBoard(f, r) && ScanBefore(r, f, rank - 1, 8)
                  && IsAttacker(g, turn, o, probe, king, f, r)
                  && Aligned(Coord(f, r), king) && StrictlyBetween(Coord(f, r), king, p);
      assert ScanBefore(r, f, rank, 0);
    }
  }

  lemma {:induction false} ScanPathMembership(g: Grid, turn: Color, o: Oracle, probe: string, king: Coord, rank: int, file: int, p: Coord)
    requires ScanDomain(rank, file) && OnBoardAt(king) && OnBoardAt(p)
    ensures SquareName(p.file, p.rank) in PathUpTo(g, turn, o, probe, king, rank, file) <==>
              BlocksBefore(g, turn, o, probe, king, rank, file, p)
    decreases rank, file
  {
    if file == 0 {
      if rank > 0 {
        ScanPathMembership(g, turn, o, probe, king, rank - 1, 8, p);
        BlocksBeforeWrap(g, turn, o, probe, king, rank, p);
      }
    } else {
      var a := Coord(file - 1, rank);
      var prev := PathUpTo(g, turn, o, probe, king, rank, file - 1);
      ScanPathMembership(g, turn, o, probe, king, rank, file - 1, p);
      GuardedPathMembership(a, king, p);
      BlocksBeforeStep(g, turn, o, probe, king, rank, file, p);
      assert PathUpTo(g, turn, o, probe, king, rank, file)
               == if IsAttacker(g, turn, o, probe, king, file - 1, rank) then prev + GuardedPath(a, king) else prev;
    }
  }

  /** Squares listed in strictly increasing scan order. */
  predicate InScanOrder(squares: seq<Square>) {
    forall i, j :: 0 <= i < j < |squares| ==>
      ScanBefore(RankOf(squares[i]), FileOf(squares[i]), RankOf(squares[j]), FileOf(squares[j]))
  }

  /** Every square the scan has listed lies before its current position. */
  lemma {:induction false} ScanAttackersBefore(g: Grid, turn: Color, o: Oracle, probe: string, king: Coord, rank: int, file: int)
    requires ScanDomain(rank, file) && OnBoardAt(king)
    ensures forall sq :: sq in AttackersUpTo(g, turn, o, probe, king, rank, file) ==>
              ScanBefore(RankOf(sq), FileOf(sq), rank, file)
    decreases rank, file
  {
    if file == 0 {
      if rank > 0 {
        ScanAttackersBefore(g, turn, o, probe, king, rank - 1, 8);
      }
    } else {
      var prev := AttackersUpTo(g, turn, o, probe, king, rank, file - 1);
      ScanAttackersBefore(g, turn, o, probe, king, rank, file - 1);
      if IsAttacker(g, turn, o, probe, king, file - 1, rank) {
        SquareNameRoundTrip(file - 1, rank);
        AppendBefore(prev, SquareName(file - 1, rank), rank, file);
      }
    }
  }

  /** Squares before (rank, file - 1), and one square at it, all lie before (rank, file). */
  lemma AppendBefore(prev: seq<Square>, x: Square, rank: int, file: int)
    requires forall sq :: sq in prev ==> ScanBefore(RankOf(sq), FileOf(sq), rank, file - 1)
    requires RankOf(x) == rank && FileOf(x) == file - 1
    ensures forall sq :: sq in prev + [x] ==> ScanBefore(RankOf(sq), FileOf(sq), rank, file)
  {
  }

  /** Appending a square that comes after every listed one keeps the list in scan order. */
  lemma InScanOrderAppend(prev: seq<Square>, x: Square, rank: int, file: int)
    requires InScanOrder(prev)
    requires forall sq :: sq in prev ==> ScanBefore(RankOf(sq), FileOf(sq), rank, file)
    requires RankOf(x) == rank && FileOf(x) == file
    ensures InScanOrder(prev + [x])
  {
    var att := prev + [x];
    forall i, j | 0 <= i < j < |att|
      ensures ScanBefore(RankOf(att[i]), FileOf(att[i]), RankOf(att[j]), FileOf(att[j]))
    {
      assert att[i] == prev[i] && prev[i] in prev;
      if j < |prev| {
        assert att[j] == prev[j];
      }
    }
  }

  /** The attackers are listed in strictly increasing scan order. */
  lemma {:induction false} ScanAttackersOrdered(g: Grid, turn: Color, o: Oracle, probe: string, king: Coord, rank: int, file: int)
    requires ScanDomain(rank, file) && OnBoardAt(king)
    ensures InScanOrder(AttackersUpTo(g, turn, o, probe, king, rank, file))
    decreases rank, file
  {
    if file == 0 {
      if rank > 0 {
        ScanAttackersOrdered(g, turn, o, probe, king, rank - 1, 8);
      }
    } else {
      var prev := AttackersUpTo(g, turn, o, probe, king, rank, file - 1);
      ScanAttackersOrdered(g, turn, o, probe, king, rank, file - 1);
      ScanStep(g, turn, o, probe, king, rank, file - 1);
      if IsAttacker(g, turn, o, probe, king, file - 1, rank) {
        ScanAttackersBefore(g, turn, o, probe, king, rank, file - 1);
        SquareNameRoundTrip(file - 1, rank);
        InScanOrderAppend(prev, SquareName(file - 1, rank), rank, file - 1);
      } else {
        assert prev + [] == prev;
      }
    }
  }

  /** The attackers are exactly the opposing pieces whose probe-position move list holds the
      king square, in scan order; a path square is exactly a square strictly between the king and an attacker
      on one of its lines; the scan meets a non-terminating walk exactly when some attacker is
      on no line of the king. */
  lemma GeometryExactly(g: Grid, turn: Color, o: Oracle, probe: string, king: Coord)
    requires OnBoardAt(king)
    ensures forall f, r :: OnBoard(f, r) ==>
              (SquareName(f, r) in Geometry(g, turn, o, probe, king).attackers
               <==> IsAttacker(g, turn, o, probe, king, f, r))
    ensures forall sq :: sq in Geometry(g, turn, o, probe, king).attackers ==> IsSquare(sq)
    ensures InScanOrder(Geometry(g, turn, o, probe, king).attackers)
    ensures Geometry(g, turn, o, probe, king).hung <==>
              exists f, r :: OnBoard(f, r) && IsAttacker(g, turn, o, probe, king, f, r) && !Aligned(Coord(f, r), king)
    ensures forall pf, pr :: OnBoard(pf, pr) ==>
              (SquareName(pf, pr) in Geometry(g, turn, o, probe, king).path <==>
               exists f, r :: OnBoard(f, r) && IsAttacker(g, turn, o, probe, king, f, r)
                              && Aligned(Coord(f, r), king) && StrictlyBetween(Coord(f, r), king, Coord(pf, pr)))
  {
    forall f, r | OnBoard(f, r)
      ensures SquareName(f, r) in Geometry(g, turn, o, probe, king).attackers <==> IsAttacker(g, turn, o, probe, king, f, r)
    {
      ScanAttackersMembership(g, turn, o, probe, king, 8, 0, f, r);
    }
    ScanAttackersAreSquares(g, turn, o, probe, king, 8, 0);
    ScanAttackersOrdered(g, turn, o, probe, king, 8, 0);
    ScanHungExactly(g, turn, o, probe, king, 8, 0);
    forall pf, pr | OnBoard(pf, pr)
      ensures SquareName(pf, pr) in Geometry(g, turn, o, probe, king).path <==>
               exists f, r :: OnBoard(f, r) && IsAttacker(g, turn, o, probe, king, f, r)
                              && Aligned(Coord(f, r), king) && StrictlyBetween(Coord(f, r), king, Coord(pf, pr))
    {
      ScanPathMembership(g, turn, o, probe, king, 8, 0, Coord(pf, pr));
    }
  }

  /** One square of the scan. */
  lemma ScanStep(g: Grid, turn: Color, o: Oracle, probe: string, king: Coord, rank: int, file: int)
    requires 0 <= rank < 8 && 0 <= file < 8 && OnBoardAt(king)
    ensures var hit := IsAttacker(g, turn, o, probe, king, file, rank);
            && AttackersUpTo(g, turn, o, probe, king, rank, file + 1)
                 == AttackersUpTo(g, turn, o, probe, king, rank, file) + (if hit then [SquareName(file, rank)] else [])
            && PathUpTo(g, turn, o, probe, king, rank, file + 1)
                 == PathUpTo(g, turn, o, probe, king, rank, file) + (if hit then GuardedPath(Coord(file, rank), king) else [])
            && (HungUpTo(g, turn, o, probe, king, rank, file + 1)
                <==> (HungUpTo(g, turn, o, probe, king, rank, file) || (hit && !Aligned(Coord(file, rank), king))))
  {
    var s := AttackersUpTo(g, turn, o, probe, king, rank, file);
    var p := PathUpTo(g, turn, o, probe, king, rank, file);
    assert s + [] == s && p + [] == p;
  }

  /** The end of a rank of the scan is the start of the next. */
  lemma ScanWrap(g: Grid, turn: Color, o: Oracle, probe: string, king: Coord, rank: int)
    requires 0 <= rank < 8 && OnBoardAt(king)
    ensures AttackersUpTo(g, turn, o, probe, king, rank + 1, 0) == AttackersUpTo(g, turn, o, probe, king, rank, 8)
    ensures PathUpTo(g, turn, o, probe, king, rank + 1, 0) == PathUpTo(g, turn, o, probe, king, rank, 8)
    ensures HungUpTo(g, turn, o, probe, king, rank + 1, 0) == HungUpTo(g, turn, o, probe, king, rank, 8)
  {
  }

  /** The nested loops at ChessBoard.tsx:133-168, run while the probe position is loaded.
      `hung` reports that an attacker is on no line of the king, where the source's walk never
      ends; the model stops the scan there. */
  method ScanAttackers(g: Grid, turn: Color, king: Coord, o: Oracle, probe: string)
    returns (attackers: seq<Square>, pathSquares: seq<Square>, hung: bool)
    requires OnBoardAt(king)
    requires g[king.rank][king.file].Some? && g[king.rank][king.file].value.color == turn
    ensures hung == Geometry(g, turn, o, probe, king).hung
    ensures !hung ==> attackers == Geometry(g, turn, o, probe, king).attackers
    ensures !hung ==> pathSquares == Geometry(g, turn, o, probe, king).path
  {
    attackers, pathSquares, hung := [], [], false;
    var kingSquare := SquareName(king.file, king.rank);
    SquareNameRoundTrip(king.file, king.rank);
    var rank := 0;
    while rank < 8
      invariant 0 <= rank <= 8
      invariant attackers == AttackersUpTo(g, turn, o, probe, king, rank, 0)
      invariant pathSquares == PathUpTo(g, turn, o, probe, king, rank, 0)
      invariant !HungUpTo(g, turn, o, probe, king, rank, 0)
    {
      var file := 0;
      while file < 8
        invariant 0 <= file <= 8
        invariant attackers == AttackersUpTo(g, turn, o, probe, king, rank, file)
        invariant pathSquares == PathUpTo(g, turn, o, probe, king, rank, file)
        invariant !HungUpTo(g, turn, o, probe, king, rank, file)
      {
        ScanStep(g, turn, o, probe, king, rank, file);
        var square := SquareName(file, rank);
        var piece := g[rank][file];
        if piece.Some? && piece.value.color != turn {
          var moves := o.destinations(probe, square);
          if kingSquare in moves {
            attackers := attackers + [square];
            var attacker := Coord(file, rank);
            var target := Coord(FileOf(kingSquare), RankOf(kingSquare));
            if !Aligned(attacker, target) {
              hung := true;
              ScanHungExactly(g, turn, o, probe, king, 8, 0);
              assert ScanBefore(rank, file, 8, 0) && IsAttacker(g, turn, o, probe, king, file, rank);
              return;
            }
            var segment := WalkPath(attacker, target);
            pathSquares := pathSquares + segment;
          }
        }
        file := file + 1;
      }
      ScanWrap(g, turn, o, probe, king, rank);
      rank := rank + 1;
    }
  }
}
