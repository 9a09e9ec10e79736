/**
 * The classical board (ajedrez_clasico/tablero.py): the square map, whose
 * turn it is, the game status and the move history; move execution with the
 * self-check gate, check and checkmate detection, and the opening layout.
 */
module ClassicBoard {
  import opened Wrappers
  import opened ClassicPiece

  /** The statuses the move logic sets. */
  datatype Status = Playing | Check | Checkmate

  function Opponent(c: Color): (r: Color)
    ensures r != c
  {
    if c == White then Black else White
  }

  /** The order in which the model visits the squares of the map (x-major). */
  function AllSquares(): seq<Pos> {
    seq(64, i => Pos(i / 8, i % 8))
  }

  /** The scan order visits exactly the 64 squares of the board. */
  lemma AllSquaresSpan()
    ensures |AllSquares()| == 64
    ensures forall i :: 0 <= i < 64 ==> InBounds(AllSquares()[i])
    ensures forall s :: InBounds(s) <==> s in AllSquares()
  {
    forall s | InBounds(s)
      ensures s in AllSquares()
    {
      var i := 8 * s.x + s.y;
      assert i / 8 == s.x && i % 8 == s.y;
      assert AllSquares()[i] == s;
    }
  }

  /**
   * The board's invariant: the map has exactly the 64 squares as keys (an
   * unset square reads as empty anyway), and every piece's own record of its
   * position agrees with the square that holds it.
   */
  ghost predicate WellFormed(sq: Squares) {
    && (forall s :: s in sq <==> InBounds(s))
    && (forall s :: s in sq && sq[s].Some? ==> sq[s].value.position == s)
  }

  // ------------------------------------------------------- check and mate

  predicate IsKingOf(cell: Option<Piece>, c: Color) {
    cell.Some? && cell.value.color == c && cell.value.kind == King
  }

  /** The first square from index `i` on, in scan order, that holds a king of colour `c`. */
  function KingSearch(sq: Squares, c: Color, i: nat): Option<Pos>
    decreases 64 - i
  {
    if i >= 64 then None
    else if IsKingOf(At(sq, AllSquares()[i]), c) then Some(AllSquares()[i])
    else KingSearch(sq, c, i + 1)
  }

  function KingSquare(sq: Squares, c: Color): Option<Pos> {
    KingSearch(sq, c, 0)
  }

  /** The piece on `s` is an enemy of `c` and has `k` among its candidate moves. */
  predicate Attacks(sq: Squares, s: Pos, c: Color, k: Pos) {
    At(sq, s).Some? && At(sq, s).value.color != c && k in Moves(sq, At(sq, s).value)
  }

  /** Some square from index `i` on, in scan order, holds an enemy of `c` that attacks `k`. */
  predicate AttackerSearch(sq: Squares, c: Color, k: Pos, i: nat)
    decreases 64 - i
  {
    i < 64 && (Attacks(sq, AllSquares()[i], c, k) || AttackerSearch(sq, c, k, i + 1))
  }

  /** Colour `c` is in check: it has a king and an enemy piece can move onto that king's square. */
  predicate InCheck(sq: Squares, c: Color) {
    KingSquare(sq, c).Some? && AttackerSearch(sq, c, KingSquare(sq, c).value, 0)
  }

  /** The board while the check-mate test tries `piece` from `s` on `m`. */
  function Simulated(sq: Squares, s: Pos, piece: Piece, m: Pos): Squares {
    sq[m := Some(piece.(position := m))][s := None]
  }

  function MovesAt(sq: Squares, s: Pos): seq<Pos> {
    if At(sq, s).Some? then Moves(sq, At(sq, s).value) else []
  }

  /** Moving the piece of colour `c` on `s` to `m` would leave `c` out of check. */
  predicate Escape(sq: Squares, c: Color, s: Pos, m: Pos) {
    At(sq, s).Some? && At(sq, s).value.color == c && !InCheck(Simulated(sq, s, At(sq, s).value, m), c)
  }

  /** No candidate move of the piece on `s`, from the `k`-th on, gets colour `c` out of check. */
  predicate Trapped(sq: Squares, c: Color, s: Pos, k: nat)
    decreases |MovesAt(sq, s)| - k
  {
    k >= |MovesAt(sq, s)| || (!Escape(sq, c, s, MovesAt(sq, s)[k]) && Trapped(sq, c, s, k + 1))
  }

  /** No piece on a square from index `i` on, in scan order, has a move that gets `c` out of check. */
  predicate AllTrapped(sq: Squares, c: Color, i: nat)
    decreases 64 - i
  {
    i >= 64 || (Trapped(sq, c, AllSquares()[i], 0) && AllTrapped(sq, c, i + 1))
  }

  /** Colour `c` is in check and no candidate move of any of its pieces escapes it. */
  predicate Mated(sq: Squares, c: Color) {
    InCheck(sq, c) && AllTrapped(sq, c, 0)
  }

  /** The status set for the side `c` that is to move next. */
  function StatusFor(sq: Squares, c: Color): Status {
    if InCheck(sq, c) then (if Mated(sq, c) then Checkmate else Check) else Playing
  }

  // --------------------------------------------------------------- moves

  /** The board after the piece on `o` moves to `d`, capturing whatever was there. */
  function Applied(sq: Squares, o: Pos, d: Pos): Squares
    requires At(sq, o).Some?
  {
    var p := At(sq, o).value;
    sq[d := Some(p.(position := d, moves := p.moves + 1))][o := None]
  }

  /** A move is accepted: a piece of the side to move, a candidate destination, and no check on its own king after it. */
  predicate Legal(sq: Squares, turn: Color, o: Pos, d: Pos) {
    && o in sq && sq[o].Some? && sq[o].value.color == turn
    && d in Moves(sq, sq[o].value)
    && !InCheck(Applied(sq, o, d), turn)
  }

  // ------------------------------------------------------ opening layout

  /** One entry of the opening layout: square, colour and type. */
  datatype Placement = Placement(x: int, y: int, color: Color, kind: Kind)

  function WhiteLayout(): seq<Placement> {
    [ Placement(0, 0, White, Rook), Placement(1, 0, White, Knight),
      Placement(2, 0, White, Bishop), Placement(3, 0, White, Queen),
      Placement(4, 0, White, King), Placement(5, 0, White, Bishop),
      Placement(6, 0, White, Knight), Placement(7, 0, White, Rook) ]
    + seq(8, i => Placement(i, 1, White, Pawn))
  }

  /** Black's back rank copies the types of white's first eight entries onto y = 7. */
  function BlackLayout(): seq<Placement> {
    var w := WhiteLayout();
    seq(8, i requires 0 <= i < 8 => Placement(w[i].x, 7, Black, w[i].kind))
    + seq(8, i => Placement(i, 6, Black, Pawn))
  }

  function Layout(): seq<Placement> {
    WhiteLayout() + BlackLayout()
  }

  function PlacedPiece(e: Placement): Piece {
    Piece(e.color, e.kind, Pos(e.x, e.y), 0)
  }

  function PlaceAll(sq: Squares, es: seq<Placement>): Squares {
    if es == [] then sq
    else
      var e := es[|es| - 1];
      PlaceAll(sq, es[..|es| - 1])[Pos(e.x, e.y) := Some(PlacedPiece(e))]
  }

  function EmptySquares(): Squares {
    map s | s in AllSquares() :: None
  }

  function InitialSquares(): Squares {
    PlaceAll(EmptySquares(), Layout())
  }

  /** The back-rank type on file x, as the opening layout lists it. */
  function BackRank(x: int): Kind {
    if x == 0 || x == 7 then Rook
    else if x == 1 || x == 6 then Knight
    else if x == 2 || x == 5 then Bishop
    else if x == 3 then Queen
    else King
  }

  // ------------------------------------------------------- board lemmas

  /** Putting a piece back where it was undoes a tentative move on a well-formed map. */
  lemma Undo(sq: Squares, o: Pos, d: Pos, moved: Option<Piece>)
    requires WellFormed(sq) && InBounds(o) && InBounds(d) && o != d
    ensures sq[d := moved][o := None][o := At(sq, o)][d := At(sq, d)] == sq
  {
  }

  /** Moving a piece onto a square of the board keeps the map well formed. */
  lemma AppliedWellFormed(sq: Squares, o: Pos, d: Pos)
    requires WellFormed(sq) && At(sq, o).Some? && InBounds(d)
    ensures WellFormed(Applied(sq, o, d))
  {
  }

  /** Only a piece of colour `c` can get `c` out of check. */
  lemma {:induction false} NoEscapeForOthers(sq: Squares, c: Color, s: Pos, k: nat)
    requires At(sq, s).None? || At(sq, s).value.color != c
    ensures Trapped(sq, c, s, k)
    decreases |MovesAt(sq, s)| - k
  {
    if k < |MovesAt(sq, s)| {
      NoEscapeForOthers(sq, c, s, k + 1);
    }
  }

  // -------------------------------------------------------------- board

  class Board {
    var squares: Squares
    var turn: Color
    var status: Status
    var history: seq<(Pos, Pos)>

    ghost predicate Valid()
      reads this
    {
      WellFormed(squares)
    }

    /** The opening position, white to move. */
    constructor ()
      ensures Valid()
      ensures squares == InitialSquares()
      ensures turn == White && status == Playing && history == []
    {
      squares := EmptySquares();
      turn := White;
      status := Playing;
      history := [];
      new;
      for i := 0 to |Layout()|
        invariant squares == PlaceAll(EmptySquares(), Layout()[..i])
        invariant turn == White && status == Playing && history == []
      {
        var e := Layout()[i];
        var s := Pos(e.x, e.y);
        squares := squares[s := Some(Piece(e.color, e.kind, s, 0))];
        assert Layout()[..i + 1][..i] == Layout()[..i];
      }
      assert Layout()[..|Layout()|] == Layout();
      InitialBoard();
    }

    /** Finds the king of colour `c`, then looks for an enemy piece whose candidates include its square. */
    method IsInCheck(c: Color) returns (b: bool)
      ensures b == InCheck(squares, c)
    {
      var king: Option<Pos> := None;
      var i := 0;
      while i < 64
        invariant 0 <= i <= 64
        invariant KingSearch(squares, c, i) == KingSquare(squares, c)
      {
        var s := AllSquares()[i];
        var cell := At(squares, s);
        if cell.Some? && cell.value.color == c && cell.value.kind == King {
          king := Some(s);
          break;
        }
        i := i + 1;
      }
      if king.None? {
        return false;
      }
      var k := king.value;
      for j := 0 to 64
        invariant AttackerSearch(squares, c, k, j) == AttackerSearch(squares, c, k, 0)
      {
        var cell := At(squares, AllSquares()[j]);
        if cell.Some? && cell.value.color != c {
          var candidates := CandidateMoves(squares, cell.value);
          if k in candidates {
            return true;
          }
        }
      }
      return false;
    }

    /**
     * Tries every candidate move of the piece of colour `c` on `s` on the
     * board itself, undoing each try before the next; false as soon as one
     * try removes the check.
     */
    method TryPiece(c: Color, s: Pos) returns (trapped: bool)
      requires Valid() && InBounds(s)
      modifies this
      ensures unchanged(this)
      ensures trapped == Trapped(squares, c, s, 0)
    {
      var cell := At(squares, s);
      if cell.None? || cell.value.color != c {
        NoEscapeForOthers(squares, c, s, 0);
        return true;
      }
      var piece := cell.value;
      var candidates := CandidateMoves(squares, piece);
      MovesSound(squares, piece);
      assert piece.position == s;
      for k := 0 to |candidates|
        invariant unchanged(this)
        invariant Trapped(squares, c, s, k) == Trapped(squares, c, s, 0)
      {
        var m := candidates[k];
        assert m in candidates;
        var captured := At(squares, m);
        Undo(squares, s, m, Some(piece.(position := m)));
        squares := squares[m := Some(piece.(position := m))][s := None];
        var stillInCheck := IsInCheck(c);
        squares := squares[s := Some(piece)][m := captured];
        if !stillInCheck {
          return false;
        }
      }
      return true;
    }

    /** Colour `c` is mated: in check, and no candidate move of any of its pieces removes the check. */
    method IsCheckmate(c: Color) returns (b: bool)
      requires Valid()
      modifies this
      ensures unchanged(this)
      ensures b == Mated(squares, c)
    {
      var inCheck := IsInCheck(c);
      if !inCheck {
        return false;
      }
      for i := 0 to 64
        invariant unchanged(this)
        invariant AllTrapped(squares, c, i) == AllTrapped(squares, c, 0)
      {
        var s := AllSquares()[i];
        assert InBounds(s);
        var trapped := TryPiece(c, s);
        if !trapped {
          return false;
        }
      }
      return true;
    }

    /**
     * Attempts the move `origin` -> `dest`. A rejected move leaves the board as
     * it was; an accepted one moves the piece, records the move, passes the
     * turn and sets the status for the side now to move.
     */
    method MakeMove(origin: Pos, dest: Pos) returns (ok: bool)
      requires Valid()
      modifies this
      ensures Valid()
      ensures ok == Legal(old(squares), old(turn), origin, dest)
      ensures !ok ==> unchanged(this)
      ensures ok ==>
        && squares == Applied(old(squares), origin, dest)
        && history == old(history) + [(origin, dest)]
        && turn == Opponent(old(turn))
        && status == StatusFor(squares, turn)
    {
      if origin !in squares {
        return false;
      }
      var cell := squares[origin];
      if cell.None? || cell.value.color != turn {
        return false;
      }
      var piece := cell.value;
      var candidates := CandidateMoves(squares, piece);
      if dest !in candidates {
        return false;
      }
      MovesSound(squares, piece);
      assert At(squares, origin) == Some(piece) && dest in Moves(squares, piece);
      ghost var legal := Legal(squares, turn, origin, dest);
      var exposed := TryMove(origin, dest);
      assert legal == !exposed;
      if exposed {
        return false;
      }
      history := history + [(origin, dest)];
      var opponent := Opponent(piece.color);
      turn := opponent;
      UpdateStatus();
      ok := true;
    }

    /**
     * Makes the move `origin` -> `dest` on the board and checks the mover's
     * king; when it is attacked, the move is taken back.
     */
    method TryMove(origin: Pos, dest: Pos) returns (exposed: bool)
      requires Valid() && InBounds(origin) && InBounds(dest) && origin != dest
      requires At(squares, origin).Some?
      modifies this
      ensures turn == old(turn) && status == old(status) && history == old(history)
      ensures exposed == InCheck(Applied(old(squares), origin, dest), At(old(squares), origin).value.color)
      ensures exposed ==> unchanged(this)
      ensures !exposed ==> squares == Applied(old(squares), origin, dest) && Valid()
    {
      var piece := squares[origin].value;
      var captured := At(squares, dest);
      Undo(squares, origin, dest, Some(piece.(position := dest, moves := piece.moves + 1)));
      AppliedWellFormed(squares, origin, dest);
      ghost var before := squares;
      assert At(before, origin) == Some(piece);
      squares := squares[dest := Some(piece.(position := dest, moves := piece.moves + 1))][origin := None];
      assert squares == Applied(before, origin, dest);
      exposed := IsInCheck(piece.color);
      if exposed {
        squares := squares[origin := Some(piece)][dest := captured];
      }
    }

    /** Sets the status for the side to move: check-mate, check, or still playing. */
    method UpdateStatus()
      requires Valid()
      modifies this
      ensures squares == old(squares) && turn == old(turn) && history == old(history)
      ensures status == StatusFor(squares, turn)
    {
      var threatened := IsInCheck(turn);
      if threatened {
        var mate := IsCheckmate(turn);
        status := if mate then Checkmate else Check;
      } else {
        status := Playing;
      }
    }
  }

  // -------------------------------------------------------------- lemmas

  /** The row of the `b`-th block of eight entries in the opening layout. */
  function LayoutRow(b: int): int {
    if b == 0 then 0 else if b == 1 then 1 else if b == 2 then 7 else 6
  }

  /** Entry `k` of the opening layout, by block of eight: white back rank, white pawns, black back rank, black pawns. */
  lemma LayoutEntries()
    ensures |Layout()| == 32
    ensures forall k :: 0 <= k < 32 ==>
      Layout()[k] == Placement(k % 8, LayoutRow(k / 8), if k < 16 then White else Black,
                               if k / 8 == 1 || k / 8 == 3 then Pawn else BackRank(k % 8))
  {
    var w := WhiteLayout();
    forall k | 0 <= k < 8
      ensures w[k] == Placement(k, 0, White, BackRank(k))
    {
      if k == 0 {} else if k == 1 {} else if k == 2 {} else if k == 3 {}
      else if k == 4 {} else if k == 5 {} else if k == 6 {} else {}
    }
  }

  lemma {:induction false} PlaceAllHit(sq: Squares, es: seq<Placement>, k: nat)
    requires k < |es|
    requires forall j :: 0 <= j < |es| && j != k ==> Pos(es[j].x, es[j].y) != Pos(es[k].x, es[k].y)
    ensures At(PlaceAll(sq, es), Pos(es[k].x, es[k].y)) == Some(PlacedPiece(es[k]))
  {
    var init := es[..|es| - 1];
    if k < |es| - 1 {
      PlaceAllHit(sq, init, k);
    }
  }

  lemma {:induction false} PlaceAllMiss(sq: Squares, es: seq<Placement>, s: Pos)
    requires forall j :: 0 <= j < |es| ==> Pos(es[j].x, es[j].y) != s
    ensures At(PlaceAll(sq, es), s) == At(sq, s)
  {
    if es != [] {
      PlaceAllMiss(sq, es[..|es| - 1], s);
    }
  }

  lemma {:induction false} PlaceAllWellFormed(sq: Squares, es: seq<Placement>)
    requires WellFormed(sq)
    requires forall j :: 0 <= j < |es| ==> InBounds(Pos(es[j].x, es[j].y))
    ensures WellFormed(PlaceAll(sq, es))
  {
    if es != [] {
      PlaceAllWellFormed(sq, es[..|es| - 1]);
    }
  }

  /** The opening position square by square: back ranks on rows 0 and 7, pawns on rows 1 and 6, white below. */
  function OpeningCell(s: Pos): Option<Piece> {
    var color := if s.y <= 1 then White else Black;
    if s.y == 0 || s.y == 7 then Some(Piece(color, BackRank(s.x), s, 0))
    else if s.y == 1 || s.y == 6 then Some(Piece(color, Pawn, s, 0))
    else None
  }

  /** The layout the constructor places is well formed and is exactly the opening position. */
  lemma InitialBoard()
    ensures WellFormed(InitialSquares())
    ensures forall s :: InBounds(s) ==> At(InitialSquares(), s) == OpeningCell(s)
  {
    LayoutEntries();
    AllSquaresSpan();
    var es := Layout();
    PlaceAllWellFormed(EmptySquares(), es);
    forall s | InBounds(s)
      ensures At(InitialSquares(), s) == OpeningCell(s)
    {
      if s.y == 0 || s.y == 1 || s.y == 6 || s.y == 7 {
        var b := if s.y == 0 then 0 else if s.y == 1 then 1 else if s.y == 7 then 2 else 3;
        var k := 8 * b + s.x;
        assert k / 8 == b && k % 8 == s.x;
        assert Pos(es[k].x, es[k].y) == s;
        PlaceAllHit(EmptySquares(), es, k);
      } else {
        PlaceAllMiss(EmptySquares(), es, s);
      }
    }
  }

  /** The opening position has one king per colour, white's on (4, 0) and black's on (4, 7). */
  lemma OpeningKingCells(c: Color)
    ensures forall s :: InBounds(s) ==>
      (IsKingOf(At(InitialSquares(), s), c) <==> s == Pos(4, if c == White then 0 else 7))
  {
    InitialBoard();
  }

  /** The opening position has one king per colour, white's on (4, 0) and black's on (4, 7), and the king search finds it. */
  lemma OpeningKings(c: Color)
    ensures forall s :: InBounds(s) ==>
      (IsKingOf(At(InitialSquares(), s), c) <==> s == Pos(4, if c == White then 0 else 7))
    ensures KingSquare(InitialSquares(), c) == Some(Pos(4, if c == White then 0 else 7))
  {
    OpeningKingCells(c);
    var home := Pos(4, if c == White then 0 else 7);
    var j := if c == White then 32 else 39;
    assert AllSquares()[j] == home;
    forall i | 0 <= i < j
      ensures !IsKingOf(At(InitialSquares(), AllSquares()[i]), c)
    {
      assert InBounds(AllSquares()[i]);
    }
    KingSearchFinds(InitialSquares(), c, 0, j);
  }

  /** Black's back rank repeats white's piece types file by file; white holds rows 0 and 1, black rows 6 and 7, the pawns rows 1 and 6. */
  lemma OpeningMirror()
    ensures forall x :: 0 <= x < 8 ==>
      && At(InitialSquares(), Pos(x, 0)).Some? && At(InitialSquares(), Pos(x, 7)).Some?
      && At(InitialSquares(), Pos(x, 7)).value.kind == At(InitialSquares(), Pos(x, 0)).value.kind
      && At(InitialSquares(), Pos(x, 0)).value.color == White
      && At(InitialSquares(), Pos(x, 7)).value.color == Black
    ensures forall s :: InBounds(s) ==>
      (At(InitialSquares(), s).Some? <==> s.y == 0 || s.y == 1 || s.y == 6 || s.y == 7)
    ensures forall s :: InBounds(s) && At(InitialSquares(), s).Some? ==>
      (At(InitialSquares(), s).value.color == White <==> s.y <= 1)
      && (At(InitialSquares(), s).value.kind == Pawn <==> s.y == 1 || s.y == 6)
  {
    InitialBoard();
    forall x | 0 <= x < 8
      ensures InBounds(Pos(x, 0)) && InBounds(Pos(x, 7))
    {
    }
  }

  // ------------------------------------------------------ search lemmas

  /** The search returns the first king of colour `c` at or after index `i`, if there is one. */
  lemma {:induction false} KingSearchFinds(sq: Squares, c: Color, i: nat, j: nat)
    requires i <= j < 64
    requires IsKingOf(At(sq, AllSquares()[j]), c)
    requires forall i' :: i <= i' < j ==> !IsKingOf(At(sq, AllSquares()[i']), c)
    ensures KingSearch(sq, c, i) == Some(AllSquares()[j])
    decreases j - i
  {
    if i < j {
      KingSearchFinds(sq, c, i + 1, j);
    }
  }

  /**
   * The king search finds a king of colour `c` exactly when the board holds
   * one from index `i` on; what it finds is one, and no square scanned
   * before it holds a king of that colour.
   */
  lemma {:induction false} KingSearchSound(sq: Squares, c: Color, i: nat)
    ensures KingSearch(sq, c, i).Some? <==>
      exists j :: i <= j < 64 && IsKingOf(At(sq, AllSquares()[j]), c)
    ensures KingSearch(sq, c, i).Some? ==>
      IsKingOf(At(sq, KingSearch(sq, c, i).value), c) && InBounds(KingSearch(sq, c, i).value)
    ensures KingSearch(sq, c, i).Some? ==>
      exists j :: i <= j < 64 && AllSquares()[j] == KingSearch(sq, c, i).value
        && forall j' :: i <= j' < j ==> !IsKingOf(At(sq, AllSquares()[j']), c)
    decreases 64 - i
  {
    if i < 64 {
      KingSearchSound(sq, c, i + 1);
      if IsKingOf(At(sq, AllSquares()[i]), c) {
        assert InBounds(AllSquares()[i]);
        assert AllSquares()[i] == KingSearch(sq, c, i).value;
      } else if KingSearch(sq, c, i + 1).Some? {
        var j :| i + 1 <= j < 64 && AllSquares()[j] == KingSearch(sq, c, i + 1).value
          && forall j' :: i + 1 <= j' < j ==> !IsKingOf(At(sq, AllSquares()[j']), c);
        assert forall j' :: i <= j' < j ==> !IsKingOf(At(sq, AllSquares()[j']), c);
      }
    }
  }

  /** The attacker search succeeds exactly when some square from index `i` on holds an attacker of `k`. */
  lemma {:induction false} AttackerSearchExists(sq: Squares, c: Color, k: Pos, i: nat)
    ensures AttackerSearch(sq, c, k, i) <==>
      exists j :: i <= j < 64 && Attacks(sq, AllSquares()[j], c, k)
    decreases 64 - i
  {
    if i < 64 {
      AttackerSearchExists(sq, c, k, i + 1);
    }
  }

  /**
   * A side with no king is never in check; otherwise it is in check exactly
   * when an enemy piece on the board has the king's square among its candidates.
   */
  lemma InCheckMeaning(sq: Squares, c: Color)
    ensures (forall s :: InBounds(s) ==> !IsKingOf(At(sq, s), c)) ==> !InCheck(sq, c)
    ensures KingSquare(sq, c).Some? ==>
      (InCheck(sq, c) <==>
         exists s :: InBounds(s) && Attacks(sq, s, c, KingSquare(sq, c).value))
  {
    KingSearchSound(sq, c, 0);
    AllSquaresSpan();
    if forall s :: InBounds(s) ==> !IsKingOf(At(sq, s), c) {
      forall j | 0 <= j < 64
        ensures !IsKingOf(At(sq, AllSquares()[j]), c)
      {
        assert InBounds(AllSquares()[j]);
      }
    }
    if KingSquare(sq, c).Some? {
      var k := KingSquare(sq, c).value;
      AttackerSearchExists(sq, c, k, 0);
      if exists s :: InBounds(s) && Attacks(sq, s, c, k) {
        var s :| InBounds(s) && Attacks(sq, s, c, k);
        var j := 8 * s.x + s.y;
        assert AllSquares()[j] == s;
      }
    }
  }

  /** The candidate moves of the `k`-th on all fail to escape exactly when `Trapped` holds. */
  lemma {:induction false} TrappedAll(sq: Squares, c: Color, s: Pos, k: nat)
    ensures Trapped(sq, c, s, k) <==>
      forall j :: k <= j < |MovesAt(sq, s)| ==> !Escape(sq, c, s, MovesAt(sq, s)[j])
    decreases |MovesAt(sq, s)| - k
  {
    var ms := MovesAt(sq, s);
    if k < |ms| {
      TrappedAll(sq, c, s, k + 1);
      var here := Escape(sq, c, s, ms[k]);
      assert Trapped(sq, c, s, k) == (!here && Trapped(sq, c, s, k + 1));
      if Trapped(sq, c, s, k) {
        forall j | k <= j < |ms|
          ensures !Escape(sq, c, s, ms[j])
        {
          if j > k {
            assert k + 1 <= j;
          }
        }
      } else if !here {
        var j :| k + 1 <= j < |ms| && Escape(sq, c, s, ms[j]);
      }
    }
  }

  /** Every square from index `i` on is trapped exactly when `AllTrapped` holds. */
  lemma {:induction false} AllTrappedAll(sq: Squares, c: Color, i: nat)
    ensures AllTrapped(sq, c, i) <==> forall j :: i <= j < 64 ==> Trapped(sq, c, AllSquares()[j], 0)
    decreases 64 - i
  {
    if i < 64 {
      AllTrappedAll(sq, c, i + 1);
    }
  }

  /**
   * Mate: the side is in check, and for every own piece on the board, every
   * candidate move, tried on the board, leaves the side in check.
   */
  lemma MatedMeaning(sq: Squares, c: Color)
    ensures Mated(sq, c) <==>
      && InCheck(sq, c)
      && forall s, m :: InBounds(s) && m in MovesAt(sq, s) ==> !Escape(sq, c, s, m)
  {
    AllTrappedAll(sq, c, 0);
    NoEscapeTrapped(sq, c);
  }

  /** Every square in scan order is trapped exactly when no candidate move of any piece of `c` escapes. */
  lemma NoEscapeTrapped(sq: Squares, c: Color)
    ensures (forall j :: 0 <= j < 64 ==> Trapped(sq, c, AllSquares()[j], 0)) <==>
      (forall s, m :: InBounds(s) && m in MovesAt(sq, s) ==> !Escape(sq, c, s, m))
  {
    AllSquaresSpan();
    if forall s, m :: InBounds(s) && m in MovesAt(sq, s) ==> !Escape(sq, c, s, m) {
      forall j | 0 <= j < 64
        ensures Trapped(sq, c, AllSquares()[j], 0)
      {
        TrappedAll(sq, c, AllSquares()[j], 0);
      }
    }
    if forall j :: 0 <= j < 64 ==> Trapped(sq, c, AllSquares()[j], 0) {
      forall s, m | InBounds(s) && m in MovesAt(sq, s)
        ensures !Escape(sq, c, s, m)
      {
        var j := 8 * s.x + s.y;
        assert AllSquares()[j] == s;
        TrappedAll(sq, c, s, 0);
      }
    }
  }

  /**
   * What an accepted move does to a well-formed board: the destination is on
   * the board, is not the origin and holds no piece of the mover's colour; the
   * piece lands there with its position updated and one more move counted, the
   * origin is emptied, every other square keeps its occupant, and the mover is
   * not in check afterwards.
   */
  lemma LegalMoveShape(sq: Squares, turn: Color, o: Pos, d: Pos)
    requires WellFormed(sq)
    requires Legal(sq, turn, o, d)
    ensures InBounds(o) && InBounds(d) && d != o && Enterable(sq, turn, d)
    ensures var p := sq[o].value;
      && At(Applied(sq, o, d), d) == Some(p.(position := d, moves := p.moves + 1))
      && At(Applied(sq, o, d), o) == None
      && (forall s :: s != o && s != d ==> At(Applied(sq, o, d), s) == At(sq, s))
    ensures WellFormed(Applied(sq, o, d))
    ensures !InCheck(Applied(sq, o, d), turn)
  {
    MovesSound(sq, sq[o].value);
  }
}
