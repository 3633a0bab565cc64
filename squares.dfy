/**
 * Square naming on the 8x8 board (components/chess/ChessBoard.tsx, the FILES and
 * RANKS tables). Board coordinates are (file, rank) indices; rank index 0 is the
 * rank labelled "8", so the board is stored top row first.
 */
module Squares {

  /** A square name such as "e4". */
  type Square = string

  const Files: string := "abcdefgh"
  const Ranks: string := "87654321"

  predicate OnBoard(file: int, rank: int) {
    0 <= file < 8 && 0 <= rank < 8
  }

  /** `${FILES[file]}${RANKS[rank]}` */
  function SquareName(file: int, rank: int): (sq: Square)
    requires OnBoard(file, rank)
    ensures |sq| == 2 && sq[0] == Files[file] && sq[1] == Ranks[rank]
  {
    [Files[file], Ranks[rank]]
  }

  /** Array.prototype.indexOf on a sequence of characters: the first index holding c, or -1. */
  function IndexOf(s: seq<char>, c: char): (i: int)
    ensures -1 <= i < |s|
    ensures i == -1 <==> c !in s
    ensures 0 <= i ==> s[i] == c && forall j :: 0 <= j < i ==> s[j] != c
  {
    if |s| == 0 then -1
    else if s[0] == c then 0
    else
      var k := IndexOf(s[1..], c);
      if k == -1 then -1 else k + 1
  }

  /** FILES.indexOf(sq[0]); a string too short to have that character gives -1. */
  function FileOf(sq: Square): int {
    if |sq| == 0 then -1 else IndexOf(Files, sq[0])
  }

  /** RANKS.indexOf(sq[1]) */
  function RankOf(sq: Square): int {
    if |sq| < 2 then -1 else IndexOf(Ranks, sq[1])
  }

  /** A string that names a square of the board. */
  predicate IsSquare(sq: Square) {
    |sq| == 2 && FileOf(sq) >= 0 && RankOf(sq) >= 0
  }

  lemma IndexOfDistinct(s: seq<char>, i: int)
    requires 0 <= i < |s|
    requires forall j, k :: 0 <= j < k < |s| ==> s[j] != s[k]
    ensures IndexOf(s, s[i]) == i
  {
    var k := IndexOf(s, s[i]);
    assert 0 <= k && s[k] == s[i];
  }

  /** The square name built from (file, rank) parses back to (file, rank). */
  lemma SquareNameRoundTrip(file: int, rank: int)
    requires OnBoard(file, rank)
    ensures FileOf(SquareName(file, rank)) == file
    ensures RankOf(SquareName(file, rank)) == rank
    ensures IsSquare(SquareName(file, rank))
  {
    FileIndex(file);
    RankIndex(rank);
  }

  /** The file letters are consecutive characters from 'a'. */
  lemma FileLetters()
    ensures forall i :: 0 <= i < 8 ==> Files[i] as int == 'a' as int + i
  {
  }

  /** The rank labels are consecutive characters counting down from '8'. */
  lemma RankLabels()
    ensures forall i :: 0 <= i < 8 ==> Ranks[i] as int == '8' as int - i
  {
  }

  lemma FileIndex(file: int)
    requires 0 <= file < 8
    ensures IndexOf(Files, Files[file]) == file
  {
    FileLetters();
    IndexOfDistinct(Files, file);
  }

  lemma RankIndex(rank: int)
    requires 0 <= rank < 8
    ensures IndexOf(Ranks, Ranks[rank]) == rank
  {
    RankLabels();
    IndexOfDistinct(Ranks, rank);
  }

  /** Every square name parses to board coordinates whose name it is. */
  lemma ParsedSquareRoundTrip(sq: Square)
    requires IsSquare(sq)
    ensures OnBoard(FileOf(sq), RankOf(sq))
    ensures SquareName(FileOf(sq), RankOf(sq)) == sq
  {
  }

  /** Distinct coordinates have distinct names. */
  lemma SquareNameInjective(f1: int, r1: int, f2: int, r2: int)
    requires OnBoard(f1, r1) && OnBoard(f2, r2)
    requires SquareName(f1, r1) == SquareName(f2, r2)
    ensures f1 == f2 && r1 == r2
  {
    SquareNameRoundTrip(f1, r1);
    SquareNameRoundTrip(f2, r2);
  }
}
