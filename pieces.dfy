/**
 * The piece glyph table of components/chess/pieces.ts: FEN piece letters (upper case for
 * white) mapped to the Unicode chess symbols.
 */
module Pieces {
  import opened Wrappers
  import opened Rules

  const Symbols: map<string, string> := map[
    "K" := "\U{2654}", "Q" := "\U{2655}", "R" := "\U{2656}", "B" := "\U{2657}", "N" := "\U{2658}", "P" := "\U{2659}",
    "k" := "\U{265A}", "q" := "\U{265B}", "r" := "\U{265C}", "b" := "\U{265D}", "n" := "\U{265E}", "p" := "\U{265F}"]

  /** getPieceSymbol (pieces.ts:17-20): the glyph for a piece letter, "" for no piece, an
      empty letter or a letter outside the table. */
  function PieceSymbol(piece: Option<string>): (glyph: string)
    ensures piece.None? ==> glyph == ""
    ensures piece.Some? && piece.value in Symbols ==> glyph == Symbols[piece.value]
    ensures piece.Some? && piece.value !in Symbols ==> glyph == ""
  {
    if piece.None? || piece.value == "" then ""
    else if piece.value in Symbols then Symbols[piece.value]
    else ""
  }

  /** The FEN letter of a piece. */
  function Letter(p: Piece): string {
    var upper := match p.kind
      case King => 'K' case Queen => 'Q' case Rook => 'R'
      case Bishop => 'B' case Knight => 'N' case Pawn => 'P';
    if p.color == White then [upper] else [(upper as int + 32) as char]
  }

  /** The position of a kind in Unicode's chess-symbol block, and so also in the table. */
  function SymbolRank(k: Kind): (i: nat)
    ensures i < 6
  {
    match k
    case King => 0 case Queen => 1 case Rook => 2 case Bishop => 3 case Knight => 4 case Pawn => 5
  }

  /** The Unicode code point of a piece's symbol: white from U+2654, black six further on. */
  function CodePoint(p: Piece): (c: int)
    ensures 0x2654 <= c <= 0x265F
  {
    0x2654 + SymbolRank(p.kind) + if p.color == Black then 6 else 0
  }

  /** Every piece's letter has the glyph Unicode assigns to that piece. */
  lemma SymbolIsUnicodeChessSymbol(p: Piece)
    ensures PieceSymbol(Some(Letter(p))) == [CodePoint(p) as char]
  {
    match p.kind
    case King => assert p.color == White || p.color == Black;
    case Queen => assert p.color == White || p.color == Black;
    case Rook => assert p.color == White || p.color == Black;
    case Bishop => assert p.color == White || p.color == Black;
    case Knight => assert p.color == White || p.color == Black;
    case Pawn => assert p.color == White || p.color == Black;
  }

  /** Distinct pieces are drawn with distinct glyphs. */
  lemma SymbolsDistinguishPieces(p: Piece, q: Piece)
    requires p != q
    ensures PieceSymbol(Some(Letter(p))) != PieceSymbol(Some(Letter(q)))
  {
    SymbolIsUnicodeChessSymbol(p);
    SymbolIsUnicodeChessSymbol(q);
    assert [CodePoint(p) as char][0] == CodePoint(p) as char;
  }

  /** The table is exactly the twelve piece letters: every key is some piece's letter, and a
      string that is no piece's letter has no glyph. */
  lemma TableIsThePieceLetters(s: string)
    ensures s in Symbols <==> exists p: Piece :: Letter(p) == s
    ensures (forall p: Piece :: Letter(p) != s) ==> PieceSymbol(Some(s)) == ""
  {
    if s in Symbols {
      if s == "K" { assert Letter(Piece(King, White)) == s; }
      else if s == "Q" { assert Letter(Piece(Queen, White)) == s; }
      else if s == "R" { assert Letter(Piece(Rook, White)) == s; }
      else if s == "B" { assert Letter(Piece(Bishop, White)) == s; }
      else if s == "N" { assert Letter(Piece(Knight, White)) == s; }
      else if s == "P" { assert Letter(Piece(Pawn, White)) == s; }
      else if s == "k" { assert Letter(Piece(King, Black)) == s; }
      else if s == "q" { assert Letter(Piece(Queen, Black)) == s; }
      else if s == "r" { assert Letter(Piece(Rook, Black)) == s; }
      else if s == "b" { assert Letter(Piece(Bishop, Black)) == s; }
      else if s == "n" { assert Letter(Piece(Knight, Black)) == s; }
      else { assert Letter(Piece(Pawn, Black)) == s; }
    }
    forall p: Piece | Letter(p) == s ensures s in Symbols {
      SymbolIsUnicodeChessSymbol(p);
    }
  }
}
