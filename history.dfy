/**
 * The move list of components/chess/MoveHistory.tsx: the flat SAN history is paired into
 * numbered rows, white's move and then black's reply, and each row is rendered with "..."
 * standing in for a missing move.
 */
module MoveHistory {
  import opened Wrappers

  /** One numbered row: white's move, and black's reply once it has been played. */
  datatype Entry = Entry(moveNumber: nat, white: string, black: Option<string>)

  /** The rows for `moves`, numbered from `n`. */
  function PairsFrom(moves: seq<string>, n: nat): seq<Entry>
    decreases |moves|
  {
    if |moves| == 0 then []
    else if |moves| == 1 then [Entry(n, moves[0], None)]
    else [Entry(n, moves[0], Some(moves[1]))] + PairsFrom(moves[2..], n + 1)
  }

  /** The pairing the component shows, numbered from 1. */
  function Paired(moves: seq<string>): seq<Entry> {
    PairsFrom(moves, 1)
  }

  /** The moves a row holds, in order. */
  function Cells(e: Entry): seq<string> {
    [e.white] + if e.black.Some? then [e.black.value] else []
  }

  /** The flat move list the rows were built from. */
  function Flatten(entries: seq<Entry>): seq<string>
    decreases |entries|
  {
    if |entries| == 0 then [] else Cells(entries[0]) + Flatten(entries[1..])
  }

  /** Row k, numbered n + k, holds moves 2k and 2k + 1 (the latter only when it exists). */
  lemma {:induction false} PairsFromShape(moves: seq<string>, n: nat)
    ensures |PairsFrom(moves, n)| == (|moves| + 1) / 2
    ensures forall k :: 0 <= k < |PairsFrom(moves, n)| ==>
              PairsFrom(moves, n)[k]
                == Entry(n + k, moves[2 * k], if 2 * k + 1 < |moves| then Some(moves[2 * k + 1]) else None)
    decreases |moves|
  {
    if |moves| >= 2 {
      var rest := PairsFrom(moves[2..], n + 1);
      PairsFromShape(moves[2..], n + 1);
      forall k | 1 <= k < |PairsFrom(moves, n)|
        ensures PairsFrom(moves, n)[k]
                  == Entry(n + k, moves[2 * k], if 2 * k + 1 < |moves| then Some(moves[2 * k + 1]) else None)
      {
        assert PairsFrom(moves, n)[k] == rest[k - 1];
        assert moves[2..][2 * (k - 1)] == moves[2 * k];
        if 2 * k + 1 < |moves| {
          assert moves[2..][2 * (k - 1) + 1] == moves[2 * k + 1];
        }
      }
    }
  }

  /** Row k of the pairing is numbered k + 1 and holds moves 2k and 2k + 1. */
  lemma PairedShape(moves: seq<string>)
    ensures |Paired(moves)| == (|moves| + 1) / 2
    ensures forall k :: 0 <= k < |Paired(moves)| ==>
              && Paired(moves)[k].moveNumber == k + 1
              && Paired(moves)[k].white == moves[2 * k]
              && Paired(moves)[k].black == (if 2 * k + 1 < |moves| then Some(moves[2 * k + 1]) else None)
  {
    PairsFromShape(moves, 1);
  }

  /** Pairing loses and reorders nothing: reading the rows back gives the history. */
  lemma {:induction false} FlattenPairsFrom(moves: seq<string>, n: nat)
    ensures Flatten(PairsFrom(moves, n)) == moves
    decreases |moves|
  {
    if |moves| == 1 {
      assert Flatten(PairsFrom(moves, n)) == [moves[0]] + Flatten([]);
    } else if |moves| >= 2 {
      var p := PairsFrom(moves, n);
      FlattenPairsFrom(moves[2..], n + 1);
      assert p[1..] == PairsFrom(moves[2..], n + 1);
      assert moves == [moves[0], moves[1]] + moves[2..];
    }
  }

  lemma FlattenPaired(moves: seq<string>)
    ensures Flatten(Paired(moves)) == moves
  {
    FlattenPairsFrom(moves, 1);
  }

  /** Only the last row can lack black's reply, and it does exactly when the number of moves
      is odd (white has just moved). */
  lemma OnlyLastRowIncomplete(moves: seq<string>)
    ensures forall k :: 0 <= k < |Paired(moves)| ==>
              (Paired(moves)[k].black.None? <==> k == |Paired(moves)| - 1 && |moves| % 2 == 1)
  {
    PairedShape(moves);
  }

  /** Row numbers strictly increase, so they are distinct keys for the rendered rows. */
  lemma MoveNumbersIncrease(moves: seq<string>)
    ensures forall j, k :: 0 <= j < k < |Paired(moves)| ==> Paired(moves)[j].moveNumber < Paired(moves)[k].moveNumber
  {
    PairedShape(moves);
  }

  /** The pairing loop of MoveHistory.tsx:21-31. */
  method PairMoves(moves: seq<string>) returns (history: seq<Entry>)
    ensures history == Paired(moves)
  {
    PairedShape(moves);
    history := [];
    var i := 0;
    while i < |moves|
      invariant i == 2 * |history| && i <= |moves| + 1
      invariant |history| <= |Paired(moves)|
      invariant history == Paired(moves)[..|history|]
      decreases |moves| - i
    {
      var black := if i + 1 < |moves| then Some(moves[i + 1]) else None;
      history := history + [Entry(i / 2 + 1, moves[i], black)];
      i := i + 2;
    }
  }

  // ---------------------------------------------------------------------------
  // Display

  /** A cell's text: the move, or "..." when it is missing or empty. */
  function Shown(m: Option<string>): (text: string)
    ensures text == "..." || (m.Some? && text == m.value)
    ensures m.Some? && m.value != "" ==> text == m.value
    ensures m.None? || m.value == "" ==> text == "..."
  {
    if m.None? || m.value == "" then "..." else m.value
  }

  datatype Row = Row(number: nat, white: string, black: string)

  datatype View = NoMovesYet | Rows(rows: seq<Row>)

  /** What the sheet shows for a pairing (MoveHistory.tsx:46-64). */
  function Render(entries: seq<Entry>): View {
    if |entries| == 0 then NoMovesYet
    else Rows(seq(|entries|, k requires 0 <= k < |entries| =>
                Row(entries[k].moveNumber, Shown(Some(entries[k].white)), Shown(entries[k].black))))
  }

  /** The placeholder appears exactly when no move has been played; otherwise there is one row
      per move pair, labelled 1, 2, ..., showing the played moves and "..." for a reply still
      to come. */
  lemma RenderHistory(moves: seq<string>)
    ensures Render(Paired(moves)).NoMovesYet? <==> |moves| == 0
    ensures Render(Paired(moves)).Rows? ==>
              var rows := Render(Paired(moves)).rows;
              && |rows| == (|moves| + 1) / 2
              && forall k :: 0 <= k < |rows| ==>
                   && rows[k].number == k + 1
                   && (moves[2 * k] != "" ==> rows[k].white == moves[2 * k])
                   && (2 * k + 1 < |moves| && moves[2 * k + 1] != "" ==> rows[k].black == moves[2 * k + 1])
                   && (2 * k + 1 >= |moves| ==> rows[k].black == "...")
  {
    PairedShape(moves);
  }
}
