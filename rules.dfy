/**
 * The rules engine the controller drives (the chess.js `Chess` object). Its rules
 * are not part of this model: every question the controller asks it is a field of
 * the `Oracle`, and `Chess` is the mutable engine object whose position (a FEN
 * string) and move history change only through `Load`, `Move` and `Reset`.
 */
module Rules {
  import opened Wrappers
  import opened Squares

  datatype Color = White | Black

  function Opponent(c: Color): (o: Color)
    ensures o != c
  {
    if c == White then Black else White
  }

  datatype Kind = Pawn | Knight | Bishop | Rook | Queen | King

  datatype Piece = Piece(kind: Kind, color: Color)

  /** chess.board(): eight rows of eight squares, row 0 being rank 8, column 0 file a. */
  type Grid = g: seq<seq<Option<Piece>>> | |g| == 8 && forall r :: 0 <= r < 8 ==> |g[r]| == 8
    witness seq(8, _ => seq(8, _ => None))

  /** chess.get(sq) read off a board; a string that names no square holds no piece. */
  function At(g: Grid, sq: Square): (p: Option<Piece>)
    ensures IsSquare(sq) ==> p == g[RankOf(sq)][FileOf(sq)]
    ensures !IsSquare(sq) ==> p == None
  {
    if IsSquare(sq) then g[RankOf(sq)][FileOf(sq)] else None
  }

  lemma AtSquareName(g: Grid, file: int, rank: int)
    requires OnBoard(file, rank)
    ensures At(g, SquareName(file, rank)) == g[rank][file]
  {
    SquareNameRoundTrip(file, rank);
  }

  /** The argument of chess.move: a from/to pair with an optional promotion piece, or a SAN string. */
  datatype Move = Coordinates(from: Square, to: Square, promotion: Option<Kind>) | San(san: string)

  /** One entry of chess.history({ verbose: true }). */
  datatype Played = Played(from: Square, to: Square, san: string)

  datatype Oracle = Oracle(
    /** the position chess.reset() returns to */
    start: string,
    /** chess.load(fen) accepts fen (it throws otherwise and changes nothing) */
    loads: string -> bool,
    /** the history the engine keeps across a load; deliberately left unspecified */
    afterLoad: (seq<Played>, string) -> seq<Played>,
    board: string -> Grid,
    turn: string -> Color,
    inCheck: string -> bool,
    checkmate: string -> bool,
    draw: string -> bool,
    gameOver: string -> bool,
    /** chess.moves({ square, verbose: true }).map(m => m.to) */
    destinations: (string, Square) -> seq<Square>,
    /** chess.moves(): every legal move in SAN */
    sanMoves: string -> seq<string>,
    /** chess.move(m): the new position and its history entry, or None where chess.js rejects m */
    play: (string, Move) -> Option<(string, Played)>
  )

  /** The engine never produces a position it would refuse to load. */
  ghost predicate Sane(o: Oracle) {
    && o.loads(o.start)
    && forall fen, m :: o.play(fen, m).Some? ==> o.loads(o.play(fen, m).value.0)
  }

  class Chess {
    const rules: Oracle
    /** chess.fen() */
    var fen: string
    /** chess.history({ verbose: true }) */
    var history: seq<Played>

    ghost predicate Valid()
      reads this
    {
      Sane(rules) && rules.loads(fen)
    }

    constructor (rules: Oracle)
      requires Sane(rules)
      ensures Valid() && this.rules == rules
      ensures fen == rules.start && history == []
    {
      this.rules := rules;
      fen := rules.start;
      history := [];
    }

    /** chess.load(f): replaces the position when f is accepted, else throws (ok == false). */
    method Load(f: string) returns (ok: bool)
      requires Valid()
      modifies this
      ensures Valid()
      ensures ok == rules.loads(f)
      ensures ok ==> fen == f && history == rules.afterLoad(old(history), f)
      ensures !ok ==> fen == old(fen) && history == old(history)
    {
      ok := rules.loads(f);
      if ok {
        fen := f;
        history := rules.afterLoad(history, f);
      }
    }

    /** chess.move(m): applies m and appends it to the history, or rejects it (ok == false). */
    method Move(m: Move) returns (ok: bool)
      requires Valid()
      modifies this
      ensures Valid()
      ensures ok == rules.play(old(fen), m).Some?
      ensures ok ==> fen == rules.play(old(fen), m).value.0
      ensures ok ==> history == old(history) + [rules.play(old(fen), m).value.1]
      ensures !ok ==> fen == old(fen) && history == old(history)
    {
      var r := rules.play(fen, m);
      ok := r.Some?;
      if ok {
        fen := r.value.0;
        history := history + [r.value.1];
      }
    }

    /** chess.reset() */
    method Reset()
      requires Valid()
      modifies this
      ensures Valid()
      ensures fen == rules.start && history == []
    {
      fen := rules.start;
      history := [];
    }

    function Board(): Grid reads this { rules.board(fen) }
    function Turn(): Color reads this { rules.turn(fen) }
    function IsCheck(): bool reads this { rules.inCheck(fen) }
    function IsCheckmate(): bool reads this { rules.checkmate(fen) }
    function IsGameOver(): bool reads this { rules.gameOver(fen) }
    function Get(sq: Square): Option<Piece> reads this { At(rules.board(fen), sq) }
    function Moves(sq: Square): seq<Square> reads this { rules.destinations(fen, sq) }
    function SanMoves(): seq<string> reads this { rules.sanMoves(fen) }
  }
}
