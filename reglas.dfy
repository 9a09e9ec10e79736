/**
 * Position notation (reglas.py): the writer of Forsyth-Edwards Notation for
 * the classical square map, and the applier of a move given in long algebraic
 * form such as "e2e4".
 *
 * Coordinates follow the classical board: rank r of the notation is row
 * y = r - 1, file 'a' is column x = 0.
 */
module Notation {
  import opened Wrappers
  import opened ClassicPiece
  import ClassicBoard

  // ------------------------------------------------------------- letters

  /** The lower-case FEN letter of a type; a type outside the six known ones is written as a pawn. */
  function KindLetter(k: Kind): char {
    match k
    case Pawn => 'p'
    case Rook => 'r'
    case Knight => 'n'
    case Bishop => 'b'
    case Queen => 'q'
    case King => 'k'
    case Unrecognised => 'p'
  }

  /** Upper case for an ASCII lower-case letter. */
  function Upper(ch: char): char {
    if 'a' <= ch <= 'z' then (ch as int - 32) as char else ch
  }

  /** The FEN letter of a piece: upper case for white, lower case for black. */
  function Letter(p: Piece): char {
    var l := KindLetter(p.kind);
    if p.color == White then Upper(l) else l
  }

  /** How a FEN reader takes a piece letter back to a colour and a type. */
  function ReadLetter(ch: char): Option<(Color, Kind)> {
    match ch
    case 'P' => Some((White, Pawn))
    case 'R' => Some((White, Rook))
    case 'N' => Some((White, Knight))
    case 'B' => Some((White, Bishop))
    case 'Q' => Some((White, Queen))
    case 'K' => Some((White, King))
    case 'p' => Some((Black, Pawn))
    case 'r' => Some((Black, Rook))
    case 'n' => Some((Black, Knight))
    case 'b' => Some((Black, Bishop))
    case 'q' => Some((Black, Queen))
    case 'k' => Some((Black, King))
    case _ => None
  }

  predicate IsDigit(ch: char) {
    '0' <= ch <= '9'
  }

  /** The decimal digit of a number below ten, as `str` writes it. */
  function DigitChar(n: nat): char
    requires n <= 9
  {
    ('0' as int + n) as char
  }

  // --------------------------------------------------------------- ranks

  /** The eight occupants of row `y`, from x = 0 to x = 7, as a lookup with a default reads them. */
  function RankCells(sq: Squares, y: int): seq<Option<Piece>> {
    seq(8, x => At(sq, Pos(x, y)))
  }

  /**
   * The text for `cells`, with `run` empty squares already counted before
   * them: each maximal run of empty squares is one digit, each piece its letter.
   */
  function EncodeRun(cells: seq<Option<Piece>>, run: nat): string
    requires run + |cells| <= 9
  {
    if cells == [] then
      (if run > 0 then [DigitChar(run)] else [])
    else if cells[0].None? then
      EncodeRun(cells[1..], run + 1)
    else
      (if run > 0 then [DigitChar(run)] else []) + [Letter(cells[0].value)] + EncodeRun(cells[1..], 0)
  }

  /** The FEN text of row `y`. */
  function RankString(sq: Squares, y: int): string {
    EncodeRun(RankCells(sq, y), 0)
  }

  /** The eight rank texts, from row 7 down to row 0. */
  function Ranks(sq: Squares): seq<string> {
    seq(8, i => RankString(sq, 7 - i))
  }

  /** The parts, with `sep` between consecutive ones, as `str.join` writes them. */
  function JoinWith(parts: seq<string>, sep: char): string {
    if |parts| == 0 then []
    else if |parts| == 1 then parts[0]
    else parts[0] + [sep] + JoinWith(parts[1..], sep)
  }

  function TurnChar(c: Color): char {
    if c == White then 'w' else 'b'
  }

  /** The four fields after the placement: no castling, no en-passant square, counters 0 and 1. */
  const Trailer: string := " - - 0 1"

  /** The whole FEN record of a square map with `turn` to move. */
  function Fen(sq: Squares, turn: Color): string {
    JoinWith(Ranks(sq), '/') + [' ', TurnChar(turn)] + Trailer
  }

  lemma AppendAssoc<T>(a: seq<T>, b: seq<T>, c: seq<T>)
    ensures (a + b) + c == a + (b + c)
  {
  }

  /** One step of the rank encoding: an empty cell extends the run, a piece flushes it and writes its letter. */
  lemma EncodeRunNext(cells: seq<Option<Piece>>, x: nat, run: nat)
    requires x < |cells| && run + |cells| - x <= 9
    ensures cells[x].None? ==> EncodeRun(cells[x..], run) == EncodeRun(cells[x + 1..], run + 1)
    ensures cells[x].Some? ==>
      EncodeRun(cells[x..], run) ==
        ((if run > 0 then [DigitChar(run)] else []) + [Letter(cells[x].value)]) + EncodeRun(cells[x + 1..], 0)
  {
    assert cells[x..][1..] == cells[x + 1..];
  }

  /**
   * Writes the text of row `y`, counting empty squares and flushing the count
   * before each piece and at the end of the row.
   */
  method ComputeRank(sq: Squares, y: int) returns (row: string)
    ensures row == RankString(sq, y)
  {
    ghost var cells := RankCells(sq, y);
    var empties := 0;
    row := "";
    for x := 0 to 8
      invariant empties <= x
      invariant row + EncodeRun(cells[x..], empties) == RankString(sq, y)
    {
      var p := At(sq, Pos(x, y));
      assert cells[x] == p;
      if p.None? {
        assert EncodeRun(cells[x..], empties) == EncodeRun(cells[x + 1..], empties + 1) by {
          EncodeRunNext(cells, x, empties);
        }
        empties := empties + 1;
      } else {
        ghost var before := row;
        ghost var chunk := (if empties > 0 then [DigitChar(empties)] else []) + [Letter(p.value)];
        assert EncodeRun(cells[x..], empties) == chunk + EncodeRun(cells[x + 1..], 0) by {
          EncodeRunNext(cells, x, empties);
        }
        if empties > 0 {
          row := row + [DigitChar(empties)];
          empties := 0;
        }
        row := row + [Letter(p.value)];
        assert row == before + chunk;
        AppendAssoc(before, chunk, EncodeRun(cells[x + 1..], 0));
      }
    }
    if empties > 0 {
      row := row + [DigitChar(empties)];
    }
    assert cells[8..] == [];
  }

  /** Writes the FEN record: the rows from 7 down to 0 joined by '/', then the side to move and the fixed fields. */
  method BoardToFen(sq: Squares, turn: Color) returns (fen: string)
    ensures fen == Fen(sq, turn)
  {
    var rows: seq<string> := [];
    var y := 7;
    while y >= 0
      invariant -1 <= y <= 7
      invariant rows == Ranks(sq)[..7 - y]
    {
      var row := ComputeRank(sq, y);
      assert row == Ranks(sq)[7 - y];
      assert Ranks(sq)[..7 - y + 1] == Ranks(sq)[..7 - y] + [row];
      rows := rows + [row];
      y := y - 1;
    }
    assert rows == Ranks(sq);
    fen := JoinWith(rows, '/') + [' ', TurnChar(turn)] + Trailer;
  }

  // ------------------------------------------------------------- reading

  function Empties(n: nat): seq<Option<char>> {
    seq(n, _ => None)
  }

  /** How a FEN reader expands a rank text: a digit n is n empty squares, any other character one piece. */
  function Expand(r: string): seq<Option<char>> {
    if r == [] then []
    else (if IsDigit(r[0]) then Empties(r[0] as int - '0' as int) else [Some(r[0])]) + Expand(r[1..])
  }

  /** What a reader should find on a row: nothing on an empty square, the piece's letter otherwise. */
  function Glyphs(cells: seq<Option<Piece>>): seq<Option<char>> {
    seq(|cells|, i requires 0 <= i < |cells| => if cells[i].None? then None else Some(Letter(cells[i].value)))
  }

  /** The text splits at every `sep`, as `str.split` does. */
  function SplitOn(s: string, sep: char): (parts: seq<string>)
    ensures |parts| >= 1
  {
    if s == [] then [[]]
    else if s[0] == sep then [[]] + SplitOn(s[1..], sep)
    else
      var rest := SplitOn(s[1..], sep);
      [[s[0]] + rest[0]] + rest[1..]
  }

  /** A character a rank text may contain: a run length 1..8 or a piece letter. */
  predicate RankChar(ch: char) {
    ('1' <= ch <= '8') || ReadLetter(ch).Some?
  }

  predicate NoAdjacentDigits(r: string) {
    forall i :: 0 <= i < |r| - 1 ==> !(IsDigit(r[i]) && IsDigit(r[i + 1]))
  }

  // -------------------------------------------------------------- lemmas

  /** Every piece has a letter the reader takes back to its colour and type (an unrecognised type reads as a pawn). */
  lemma LetterRoundTrip(p: Piece)
    ensures ReadLetter(Letter(p)) == Some((p.color, if p.kind == Unrecognised then Pawn else p.kind))
    ensures !IsDigit(Letter(p)) && Letter(p) != '/'
  {
    match p.kind
    case Pawn =>
    case Rook =>
    case Knight =>
    case Bishop =>
    case Queen =>
    case King =>
    case Unrecognised =>
  }

  /** The glyphs of a row are the first cell's glyph followed by the glyphs of the rest. */
  lemma GlyphsCons(cells: seq<Option<Piece>>)
    requires cells != []
    ensures Glyphs(cells) == [if cells[0].None? then None else Some(Letter(cells[0].value))] + Glyphs(cells[1..])
  {
  }

  lemma {:induction false} ExpandAppend(a: string, b: string)
    ensures Expand(a + b) == Expand(a) + Expand(b)
  {
    if a == [] {
      assert a + b == b;
    } else {
      assert (a + b)[0] == a[0] && (a + b)[1..] == a[1..] + b;
      ExpandAppend(a[1..], b);
    }
  }

  lemma ExpandDigit(run: nat)
    requires run <= 9
    ensures Expand(if run > 0 then [DigitChar(run)] else []) == Empties(run)
  {
    if run > 0 {
      assert Expand([DigitChar(run)]) == Empties(run) + Expand([]);
    }
  }

  /** Reading a rank text back gives the pending empty squares, then each cell in turn. */
  lemma {:induction false} EncodeRunExpands(cells: seq<Option<Piece>>, run: nat)
    requires run + |cells| <= 9
    ensures Expand(EncodeRun(cells, run)) == Empties(run) + Glyphs(cells)
  {
    if cells == [] {
      ExpandDigit(run);
    } else if cells[0].None? {
      EncodeRunExpands(cells[1..], run + 1);
      ExpandsAfterEmpty(cells, run);
    } else {
      EncodeRunExpands(cells[1..], 0);
      ExpandsAfterPiece(cells, run);
    }
  }

  /** The step of `EncodeRunExpands` for a leading empty cell, which only lengthens the run. */
  lemma ExpandsAfterEmpty(cells: seq<Option<Piece>>, run: nat)
    requires run + |cells| <= 9 && cells != [] && cells[0].None?
    requires Expand(EncodeRun(cells[1..], run + 1)) == Empties(run + 1) + Glyphs(cells[1..])
    ensures Expand(EncodeRun(cells, run)) == Empties(run) + Glyphs(cells)
  {
    calc {
      Expand(EncodeRun(cells, run));
      Expand(EncodeRun(cells[1..], run + 1));
      Empties(run + 1) + Glyphs(cells[1..]);
      { assert Empties(run + 1) == Empties(run) + [None]; }
      Empties(run) + ([None] + Glyphs(cells[1..]));
      { GlyphsCons(cells); }
      Empties(run) + Glyphs(cells);
    }
  }

  /** The step of `EncodeRunExpands` for a leading piece: the run's digit, the letter, then a fresh run. */
  lemma ExpandsAfterPiece(cells: seq<Option<Piece>>, run: nat)
    requires run + |cells| <= 9 && cells != [] && cells[0].Some?
    requires Expand(EncodeRun(cells[1..], 0)) == Glyphs(cells[1..])
    ensures Expand(EncodeRun(cells, run)) == Empties(run) + Glyphs(cells)
  {
    var digit: string := if run > 0 then [DigitChar(run)] else [];
    var l := Letter(cells[0].value);
    var rest := EncodeRun(cells[1..], 0);
    assert EncodeRun(cells, run) == digit + [l] + rest;
    LetterRoundTrip(cells[0].value);
    ExpandAround(digit, l, rest);
    ExpandDigit(run);
    GlyphsCons(cells);
  }

  /** A letter between two texts reads as itself between their readings. */
  lemma ExpandAround(a: string, l: char, b: string)
    requires !IsDigit(l)
    ensures Expand(a + [l] + b) == Expand(a) + ([Some(l)] + Expand(b))
  {
    calc {
      Expand(a + [l] + b);
      { ExpandAppend(a + [l], b); }
      Expand(a + [l]) + Expand(b);
      { ExpandAppend(a, [l]); }
      Expand(a) + Expand([l]) + Expand(b);
      { ExpandLetter(l); }
      Expand(a) + [Some(l)] + Expand(b);
    }
  }

  /** A single letter reads as one occupied square. */
  lemma ExpandLetter(l: char)
    requires !IsDigit(l)
    ensures Expand([l]) == [Some(l)]
  {
    assert Expand([l]) == [Some(l)] + Expand([]);
  }

  /** A rank text holds only run lengths 1..8 and piece letters, never two digits in a row, and is never empty. */
  lemma {:induction false} EncodeRunShape(cells: seq<Option<Piece>>, run: nat)
    requires run + |cells| <= 8
    ensures RankText(EncodeRun(cells, run))
    ensures run + |cells| > 0 ==> |EncodeRun(cells, run)| > 0
    ensures run > 0 ==> IsDigit(EncodeRun(cells, run)[0])
  {
    if cells == [] {
    } else if cells[0].None? {
      EncodeRunShape(cells[1..], run + 1);
    } else {
      EncodeRunShape(cells[1..], 0);
      ShapeAfterPiece(cells, run);
    }
  }

  /** A rank text holds only run lengths 1..8 and piece letters, and never two digits in a row. */
  predicate RankText(r: string) {
    (forall i :: 0 <= i < |r| ==> RankChar(r[i])) && NoAdjacentDigits(r)
  }

  /** The step of `EncodeRunShape` for a leading piece: a run length, a letter, then a well-shaped text. */
  lemma ShapeAfterPiece(cells: seq<Option<Piece>>, run: nat)
    requires run + |cells| <= 8 && cells != [] && cells[0].Some?
    requires RankText(EncodeRun(cells[1..], 0))
    ensures RankText(EncodeRun(cells, run))
  {
    var digit: string := if run > 0 then [DigitChar(run)] else [];
    var l := Letter(cells[0].value);
    var rest := EncodeRun(cells[1..], 0);
    var r := digit + [l] + rest;
    assert r == EncodeRun(cells, run);
    LetterRoundTrip(cells[0].value);
    forall i | 0 <= i < |r|
      ensures RankChar(r[i])
    {
      if i > |digit| {
        assert r[i] == rest[i - |digit| - 1];
      }
    }
    forall i | 0 <= i < |r| - 1
      ensures !(IsDigit(r[i]) && IsDigit(r[i + 1]))
    {
      if i >= |digit| + 1 {
        assert r[i] == rest[i - |digit| - 1] && r[i + 1] == rest[i - |digit|];
      }
    }
  }

  /** Every row's text reads back as exactly its eight squares, and holds only run lengths and letters. */
  lemma RankRoundTrip(sq: Squares, y: int)
    ensures Expand(RankString(sq, y)) == Glyphs(RankCells(sq, y))
    ensures |Expand(RankString(sq, y))| == 8
    ensures forall i :: 0 <= i < |RankString(sq, y)| ==> RankChar(RankString(sq, y)[i])
    ensures NoAdjacentDigits(RankString(sq, y)) && |RankString(sq, y)| > 0
  {
    EncodeRunExpands(RankCells(sq, y), 0);
    EncodeRunShape(RankCells(sq, y), 0);
    assert Empties(0) == [];
  }

  lemma {:induction false} SplitWithout(p: string, sep: char)
    requires sep !in p
    ensures SplitOn(p, sep) == [p]
  {
    if p != [] {
      SplitWithout(p[1..], sep);
      assert [p[0]] + p[1..] == p;
    }
  }

  lemma {:induction false} SplitAfter(p: string, sep: char, rest: string)
    requires sep !in p
    ensures SplitOn(p + [sep] + rest, sep) == [p] + SplitOn(rest, sep)
  {
    if p == [] {
      assert p + [sep] + rest == [sep] + rest;
    } else {
      var s := p + [sep] + rest;
      assert s[1..] == p[1..] + [sep] + rest;
      SplitAfter(p[1..], sep, rest);
      assert [p[0]] + p[1..] == p;
    }
  }

  /** Splitting a join at the separator gives the parts back when none of them contains it. */
  lemma {:induction false} SplitJoin(parts: seq<string>, sep: char)
    requires |parts| >= 1
    requires forall i :: 0 <= i < |parts| ==> sep !in parts[i]
    ensures SplitOn(JoinWith(parts, sep), sep) == parts
  {
    if |parts| == 1 {
      SplitWithout(parts[0], sep);
    } else {
      SplitJoin(parts[1..], sep);
      SplitAfter(parts[0], sep, JoinWith(parts[1..], sep));
      assert [parts[0]] + parts[1..] == parts;
    }
  }

  /**
   * The record is the placement, a space, the side to move and the fixed
   * trailer; the placement splits at '/' into eight rank texts, the i-th of
   * which reads back as row 7 - i square by square.
   */
  lemma FenRoundTrip(sq: Squares, turn: Color)
    ensures var f := Fen(sq, turn);
      && |f| > 10
      && f[|f| - 10..] == [' ', TurnChar(turn)] + " - - 0 1"
      && var parts := SplitOn(f[..|f| - 10], '/');
      && |parts| == 8
      && forall i :: 0 <= i < 8 ==> Expand(parts[i]) == Glyphs(RankCells(sq, 7 - i))
  {
    var rs := Ranks(sq);
    forall i | 0 <= i < 8
      ensures '/' !in rs[i] && |rs[i]| > 0
      ensures Expand(rs[i]) == Glyphs(RankCells(sq, 7 - i))
    {
      RankRoundTrip(sq, 7 - i);
    }
    SplitJoin(rs, '/');
    JoinLength(rs, '/');
    var f := Fen(sq, turn);
    var placement := JoinWith(rs, '/');
    assert f == placement + ([' ', TurnChar(turn)] + Trailer);
    assert f[..|f| - 10] == placement;
  }

  lemma {:induction false} JoinLength(parts: seq<string>, sep: char)
    requires |parts| >= 1 && |parts[0]| > 0
    ensures |JoinWith(parts, sep)| > 0
  {
  }

  /** A record ends with " w - - 0 1" exactly when white is to move, and with " b - - 0 1" otherwise. */
  lemma FenTurn(sq: Squares, turn: Color)
    ensures var f := Fen(sq, turn);
      |f| >= 10 && (f[|f| - 10..] == " w - - 0 1" <==> turn == White)
      && (f[|f| - 10..] == " b - - 0 1" <==> turn == Black)
  {
    FenRoundTrip(sq, turn);
    var f := Fen(sq, turn);
    assert f[|f| - 9] == TurnChar(turn);
  }

  // ------------------------------------------------------ long algebraic

  /**
   * The square a file letter and a rank character name: x counts from 'a',
   * y is the rank's number less one. None where converting the rank character
   * to a number fails.
   */
  function SquareOf(file: char, rank: char): (r: Option<Pos>)
    ensures r.Some? <==> IsDigit(rank)
    ensures r.Some? ==> -1 <= r.value.y <= 8
    ensures ('a' <= file <= 'h' && '1' <= rank <= '8') <==> (r.Some? && InBounds(r.value))
  {
    if IsDigit(rank) then Some(Pos(file as int - 'a' as int, (rank as int - '0' as int) - 1)) else None
  }

  /** How a move text is read: too short, a rank that is not a number, or an origin and a destination. */
  datatype LanMove = TooShort | RankError | Move(origin: Pos, dest: Pos)

  function ParseLan(lan: string): (m: LanMove)
    ensures m.TooShort? <==> |lan| < 4
    ensures m.RankError? <==> |lan| >= 4 && !(IsDigit(lan[1]) && IsDigit(lan[3]))
    ensures m.Move? ==> SquareOf(lan[0], lan[1]) == Some(m.origin) && SquareOf(lan[2], lan[3]) == Some(m.dest)
  {
    if |lan| < 4 then TooShort
    else
      match (SquareOf(lan[0], lan[1]), SquareOf(lan[2], lan[3]))
      case (Some(o), Some(d)) => Move(o, d)
      case _ => RankError
  }

  /** What applying a move text reports: done, refused, or the failure to read a rank. */
  datatype LanOutcome = Moved | Refused | RankNotNumber

  /** The name of an on-board square: its file letter and its rank digit. */
  function SquareName(s: Pos): (name: (char, char))
    requires InBounds(s)
  {
    (('a' as int + s.x) as char, ('1' as int + s.y) as char)
  }

  /** Naming an on-board square by its file letter and rank digit reads back to that square. */
  lemma SquareNameRoundTrip()
    ensures forall s :: InBounds(s) ==> SquareOf(SquareName(s).0, SquareName(s).1) == Some(s)
  {
  }

  /** Only the first four characters of a move text are read; a fifth, such as a promotion letter, is ignored. */
  lemma ParseLanPrefix(lan: string, extra: string)
    requires |lan| == 4
    ensures ParseLan(lan + extra) == ParseLan(lan)
  {
    assert (lan + extra)[..4] == lan;
  }

  /** The four-character text of an on-board move reads back as that move. */
  lemma LanRoundTrip(o: Pos, d: Pos)
    requires InBounds(o) && InBounds(d)
    ensures ParseLan([SquareName(o).0, SquareName(o).1, SquareName(d).0, SquareName(d).1]) == Move(o, d)
  {
  }

  /**
   * Applies a move text to the board's square map: a text shorter than four
   * characters or an empty origin is refused; otherwise the piece moves to the
   * destination, records it as its position and counts one more move, and the
   * origin is emptied. Nothing checks the piece's rules, the turn, or that the
   * destination is on the board.
   */
  method ApplyLan(board: ClassicBoard.Board, lan: string) returns (outcome: LanOutcome)
    modifies board
    ensures board.turn == old(board.turn) && board.status == old(board.status)
    ensures board.history == old(board.history)
    ensures ParseLan(lan).TooShort? ==> outcome == Refused && board.squares == old(board.squares)
    ensures ParseLan(lan).RankError? ==> outcome == RankNotNumber && board.squares == old(board.squares)
    ensures ParseLan(lan).Move? ==>
      var o, d := ParseLan(lan).origin, ParseLan(lan).dest;
      if At(old(board.squares), o).None? then
        outcome == Refused && board.squares == old(board.squares)
      else
        outcome == Moved && board.squares == ClassicBoard.Applied(old(board.squares), o, d)
  {
    if |lan| < 4 {
      return Refused;
    }
    var a, r1, b, r2 := lan[0], lan[1], lan[2], lan[3];
    var origin := SquareOf(a, r1);
    if origin.None? {
      return RankNotNumber;
    }
    var dest := SquareOf(b, r2);
    if dest.None? {
      return RankNotNumber;
    }
    var o, d := origin.value, dest.value;
    var piece := At(board.squares, o);
    if piece.None? {
      return Refused;
    }
    var p := piece.value;
    board.squares := board.squares[d := Some(p.(position := d, moves := p.moves + 1))];
    board.squares := board.squares[o := None];
    outcome := Moved;
  }

  /** Applying a move whose origin and destination coincide takes the piece off the map. */
  lemma SameSquareRemoves(sq: Squares, o: Pos)
    requires At(sq, o).Some?
    ensures At(ClassicBoard.Applied(sq, o, o), o) == None
    ensures forall s :: s != o ==> At(ClassicBoard.Applied(sq, o, o), s) == At(sq, s)
  {
  }
}
