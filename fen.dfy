/**
 * The side-to-move rewrite that `updateBoard` applies to the serialised position
 * before probing for attackers. The position is a FEN record (section 16.1 of the
 * PGN standard): fields separated by single spaces, the second of which is the
 * active colour, "w" or "b" (section 16.1.3.2). The rewrite is string surgery
 * with JavaScript's `split(" ")` and `join(" ")`, modelled here as written.
 */
module Fen {
  import opened Rules

  /** s.split(" "): there is always at least one field, and no field holds a space. */
  function Split(s: string): (fields: seq<string>)
    ensures |fields| >= 1
    ensures forall i :: 0 <= i < |fields| ==> ' ' !in fields[i]
  {
    if |s| == 0 then [""]
    else if s[0] == ' ' then [""] + Split(s[1..])
    else
      var rest := Split(s[1..]);
      [[s[0]] + rest[0]] + rest[1..]
  }

  /** fields.join(" ") */
  function Join(fields: seq<string>): string {
    if |fields| == 0 then ""
    else if |fields| == 1 then fields[0]
    else fields[0] + " " + Join(fields[1..])
  }

  predicate NoSpaces(fields: seq<string>) {
    forall i :: 0 <= i < |fields| ==> ' ' !in fields[i]
  }

  /** The active-colour letter of a side. */
  function TurnField(c: Color): (f: string)
    ensures f == "w" || f == "b"
    ensures f == "w" <==> c == White
  {
    if c == White then "w" else "b"
  }

  /** fenParts[1] = currentTurn === "w" ? "b" : "w"; fenParts.join(" ") */
  function SwapTurn(fen: string, current: Color): string {
    var fields := Split(fen);
    var flipped := TurnField(Opponent(current));
    Join(if |fields| >= 2 then fields[1 := flipped] else fields + [flipped])
  }

  /** Joining the fields of a split gives back the string. */
  lemma {:induction false} JoinSplit(s: string)
    ensures Join(Split(s)) == s
  {
    if |s| == 0 {
    } else if s[0] == ' ' {
      JoinSplit(s[1..]);
      assert s == " " + s[1..];
    } else {
      JoinSplit(s[1..]);
      var rest := Split(s[1..]);
      if |rest| == 1 {
        assert s == [s[0]] + s[1..];
      } else {
        assert Join(rest) == rest[0] + " " + Join(rest[1..]);
        assert rest[1..][1..] == rest[2..];
        assert ([[s[0]] + rest[0]] + rest[1..])[1..] == rest[1..];
        assert s == [s[0]] + s[1..];
      }
    }
  }

  /** Splitting a word without spaces followed by tail glues the word onto the tail's first field. */
  lemma {:induction false} SplitWord(w: string, tail: string)
    requires ' ' !in w
    ensures Split(w + tail) == [w + Split(tail)[0]] + Split(tail)[1..]
  {
    if |w| == 0 {
      var t := Split(tail);
      assert w + tail == tail && w + t[0] == t[0];
      assert t == [t[0]] + t[1..];
    } else {
      assert (w + tail)[0] == w[0];
      assert (w + tail)[1..] == w[1..] + tail;
      SplitWord(w[1..], tail);
      assert [w[0]] + (w[1..] + Split(tail)[0]) == w + Split(tail)[0];
    }
  }

  /** Splitting joined fields gives the fields back when none of them holds a space. */
  lemma {:induction false} SplitJoin(fields: seq<string>)
    requires |fields| >= 1 && NoSpaces(fields)
    ensures Split(Join(fields)) == fields
  {
    if |fields| == 1 {
      SplitWord(fields[0], "");
      assert fields[0] + "" == fields[0];
    } else {
      var rest := fields[1..];
      SplitJoin(rest);
      var tail := " " + Join(rest);
      assert Join(fields) == fields[0] + tail;
      SplitWord(fields[0], tail);
      assert tail[0] == ' ' && tail[1..] == Join(rest);
      assert Split(tail) == [""] + rest;
      assert fields[0] + "" == fields[0];
      assert fields == [fields[0]] + rest;
    }
  }

  /** Swapping the side to move in a string built from space-free fields replaces field 1. */
  lemma SwapTurnJoin(fields: seq<string>, current: Color)
    requires |fields| >= 2 && NoSpaces(fields)
    ensures SwapTurn(Join(fields), current) == Join(fields[1 := TurnField(Opponent(current))])
  {
    SplitJoin(fields);
  }

  /** Only field 1 changes, and it becomes the letter of the other side; a string without a
      second field gets one appended. */
  lemma SwapTurnFields(fen: string, current: Color)
    ensures |Split(fen)| >= 2 ==>
              Split(SwapTurn(fen, current)) == Split(fen)[1 := TurnField(Opponent(current))]
    ensures |Split(fen)| < 2 ==>
              Split(SwapTurn(fen, current)) == Split(fen) + [TurnField(Opponent(current))]
    ensures Split(SwapTurn(fen, current))[1] == TurnField(Opponent(current))
  {
    var fields := Split(fen);
    var flipped := TurnField(Opponent(current));
    var swapped := if |fields| >= 2 then fields[1 := flipped] else fields + [flipped];
    assert NoSpaces(swapped) by {
      forall i | 0 <= i < |swapped| ensures ' ' !in swapped[i] {
        if i == 1 { assert swapped[i] == flipped; } else { assert swapped[i] == fields[i]; }
      }
    }
    SplitJoin(swapped);
  }

  /** Swapping the side to move twice, first as the recorded side and then as its opponent,
      restores the original string. */
  lemma SwapTurnTwice(fen: string, current: Color)
    requires |Split(fen)| >= 2 && Split(fen)[1] == TurnField(current)
    ensures SwapTurn(SwapTurn(fen, current), Opponent(current)) == fen
  {
    var fields := Split(fen);
    SwapTurnFields(fen, current);
    var once := SwapTurn(fen, current);
    assert Opponent(Opponent(current)) == current;
    assert Split(once)[1 := TurnField(current)] == fields;
    JoinSplit(fen);
  }
}
