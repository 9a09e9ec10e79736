/**
 * Classical pieces and their candidate moves (ajedrez_clasico/pieza.py).
 *
 * A candidate move is a destination allowed by the piece's own geometry and by
 * the occupancy of the board, before any check-safety filtering. Every
 * generator only reads the square map and the piece.
 */
module ClassicPiece {
  import opened Wrappers

  /** A square (x, y); the playing area is [0,8) x [0,8). */
  datatype Pos = Pos(x: int, y: int)

  predicate InBounds(s: Pos) {
    0 <= s.x < 8 && 0 <= s.y < 8
  }

  datatype Color = White | Black

  /** The piece types; `Unrecognised` stands for a type value outside the six known ones. */
  datatype Kind = Pawn | Rook | Bishop | Knight | Queen | King | Unrecognised

  /** A piece: colour, type, its own record of where it stands, and how often it has moved. */
  datatype Piece = Piece(color: Color, kind: Kind, position: Pos, moves: nat)

  /** The board's square map. */
  type Squares = map<Pos, Option<Piece>>

  /** The occupant of `s` as a lookup with a default sees it: a missing key reads as empty. */
  function At(sq: Squares, s: Pos): Option<Piece> {
    if s in sq then sq[s] else None
  }

  /** A piece of colour `c` may land on `t`: the square is empty or holds an enemy. */
  predicate Enterable(sq: Squares, c: Color, t: Pos) {
    At(sq, t).None? || At(sq, t).value.color != c
  }

  /** The square `off` away from the piece. */
  function Offset(p: Piece, off: (int, int)): Pos {
    Pos(p.position.x + off.0, p.position.y + off.1)
  }

  // ---------------------------------------------------------------- pawn

  /** The pawn's forward direction on the y axis. */
  function Direction(c: Color): int {
    if c == White then 1 else -1
  }

  /** The forward steps: one square when empty, then two when the pawn has never moved. */
  function PawnAdvance(sq: Squares, p: Piece): seq<Pos> {
    var d := Direction(p.color);
    var one := Pos(p.position.x, p.position.y + d);
    var two := Pos(p.position.x, p.position.y + 2 * d);
    if 0 <= one.y < 8 && At(sq, one).None? then
      [one] + (if p.moves == 0 && 0 <= two.y < 8 && At(sq, two).None? then [two] else [])
    else
      []
  }

  /** The diagonal capture towards `dx`, offered only onto an enemy piece. */
  function PawnCapture(sq: Squares, p: Piece, dx: int): seq<Pos> {
    var t := Pos(p.position.x + dx, p.position.y + Direction(p.color));
    if InBounds(t) && At(sq, t).Some? && At(sq, t).value.color != p.color then [t] else []
  }

  /** The diagonal captures for the listed sideways offsets, in order. */
  function PawnCaptures(sq: Squares, p: Piece, dxs: seq<int>): seq<Pos> {
    if dxs == [] then []
    else PawnCaptures(sq, p, dxs[..|dxs| - 1]) + PawnCapture(sq, p, dxs[|dxs| - 1])
  }

  const CaptureSides: seq<int> := [-1, 1]

  function PawnMoves(sq: Squares, p: Piece): seq<Pos> {
    PawnAdvance(sq, p) + PawnCaptures(sq, p, CaptureSides)
  }

  // ------------------------------------------------------- sliding pieces

  /** The square `i` steps away from the piece along (dx, dy). */
  function Step(p: Piece, dx: int, dy: int, i: int): Pos {
    Pos(p.position.x + i * dx, p.position.y + i * dy)
  }

  /**
   * The rest of the ray along (dx, dy) from step `i` on, for steps below 8:
   * empty squares are taken, the ray stops at the edge, and at the first
   * occupied square, which is taken only when it holds an enemy.
   */
  function Ray(sq: Squares, p: Piece, dx: int, dy: int, i: int): seq<Pos>
    decreases 8 - i
  {
    if i >= 8 then []
    else
      var t := Step(p, dx, dy, i);
      if !InBounds(t) then []
      else if At(sq, t).Some? then (if At(sq, t).value.color != p.color then [t] else [])
      else [t] + Ray(sq, p, dx, dy, i + 1)
  }

  /** The rays along the listed directions, one after the other. */
  function Slides(sq: Squares, p: Piece, dirs: seq<(int, int)>): seq<Pos> {
    if dirs == [] then []
    else
      var d := dirs[|dirs| - 1];
      Slides(sq, p, dirs[..|dirs| - 1]) + Ray(sq, p, d.0, d.1, 1)
  }

  const RookDirections: seq<(int, int)> := [(0, 1), (1, 0), (0, -1), (-1, 0)]
  const BishopDirections: seq<(int, int)> := [(1, 1), (1, -1), (-1, 1), (-1, -1)]

  // ------------------------------------------------------ jumping pieces

  /** A single jump: kept when inside the board and not onto a piece of the mover's colour. */
  function Jump(sq: Squares, p: Piece, off: (int, int)): seq<Pos> {
    var t := Offset(p, off);
    if InBounds(t) && Enterable(sq, p.color, t) then [t] else []
  }

  /** The jumps for the listed offsets, in order. */
  function Jumps(sq: Squares, p: Piece, offs: seq<(int, int)>): seq<Pos> {
    if offs == [] then []
    else Jumps(sq, p, offs[..|offs| - 1]) + Jump(sq, p, offs[|offs| - 1])
  }

  const KnightOffsets: seq<(int, int)> :=
    [(1, 2), (2, 1), (2, -1), (1, -2), (-1, -2), (-2, -1), (-2, 1), (-1, 2)]

  /** The king's step (dx, dy); the null step (0, 0) is skipped. */
  function KingStep(sq: Squares, p: Piece, dx: int, dy: int): seq<Pos> {
    if dx == 0 && dy == 0 then [] else Jump(sq, p, (dx, dy))
  }

  /** The king's steps with sideways offset `dx` and the first `n` of the vertical offsets -1, 0, 1. */
  function KingColumn(sq: Squares, p: Piece, dx: int, n: nat): seq<Pos>
    requires n <= 3
  {
    if n == 0 then [] else KingColumn(sq, p, dx, n - 1) + KingStep(sq, p, dx, n - 2)
  }

  /** The king's steps for the first `n` of the sideways offsets -1, 0, 1. */
  function KingSweep(sq: Squares, p: Piece, n: nat): seq<Pos>
    requires n <= 3
  {
    if n == 0 then [] else KingSweep(sq, p, n - 1) + KingColumn(sq, p, n - 2, 3)
  }

  // ------------------------------------------------------------ dispatch

  /** The candidate moves of `p` on `sq`, by type; an unrecognised type has none. */
  function Moves(sq: Squares, p: Piece): seq<Pos> {
    match p.kind
    case Pawn => PawnMoves(sq, p)
    case Rook => Slides(sq, p, RookDirections)
    case Bishop => Slides(sq, p, BishopDirections)
    case Knight => Jumps(sq, p, KnightOffsets)
    case Queen => Slides(sq, p, RookDirections) + Slides(sq, p, BishopDirections)
    case King => KingSweep(sq, p, 3)
    case Unrecognised => []
  }

  // ------------------------------------------------------------- methods

  method ComputePawnMoves(sq: Squares, p: Piece) returns (ms: seq<Pos>)
    ensures ms == PawnMoves(sq, p)
  {
    ms := [];
    var x, y := p.position.x, p.position.y;
    var d := if p.color == White then 1 else -1;
    var t := Pos(x, y + d);
    if 0 <= t.y < 8 && At(sq, t).None? {
      ms := ms + [t];
      if p.moves == 0 {
        t := Pos(x, y + 2 * d);
        if 0 <= t.y < 8 && At(sq, t).None? {
          ms := ms + [t];
        }
      }
    }
    assert ms == PawnAdvance(sq, p);
    var captures := ComputePawnCaptures(sq, p);
    ms := ms + captures;
  }

  /** The pawn's loop over the two diagonals. */
  method ComputePawnCaptures(sq: Squares, p: Piece) returns (ms: seq<Pos>)
    ensures ms == PawnCaptures(sq, p, CaptureSides)
  {
    ms := [];
    var x, y := p.position.x, p.position.y;
    var d := if p.color == White then 1 else -1;
    for j := 0 to |CaptureSides|
      invariant ms == PawnCaptures(sq, p, CaptureSides[..j])
    {
      var dx := CaptureSides[j];
      var t := Pos(x + dx, y + d);
      assert CaptureSides[..j + 1][..j] == CaptureSides[..j];
      if 0 <= t.x < 8 && 0 <= t.y < 8 {
        if At(sq, t).Some? && At(sq, t).value.color != p.color {
          ms := ms + [t];
        }
      }
    }
    assert CaptureSides[..|CaptureSides|] == CaptureSides;
  }

  /** One ray of the rook's or the bishop's loop: step outwards until the edge or a blocker. */
  method ComputeRay(sq: Squares, p: Piece, dx: int, dy: int) returns (ms: seq<Pos>)
    ensures ms == Ray(sq, p, dx, dy, 1)
  {
    ms := [];
    var x, y := p.position.x, p.position.y;
    var i := 1;
    while i < 8
      invariant 1 <= i <= 8
      invariant ms + Ray(sq, p, dx, dy, i) == Ray(sq, p, dx, dy, 1)
    {
      var t := Pos(x + i * dx, y + i * dy);
      assert t == Step(p, dx, dy, i);
      if !(0 <= t.x < 8 && 0 <= t.y < 8) {
        assert Ray(sq, p, dx, dy, i) == [];
        return;
      }
      if t in sq && sq[t].Some? {
        assert Ray(sq, p, dx, dy, i) == if sq[t].value.color != p.color then [t] else [];
        if sq[t].value.color != p.color {
          ms := ms + [t];
        }
        return;
      }
      assert Ray(sq, p, dx, dy, i) == [t] + Ray(sq, p, dx, dy, i + 1);
      ms := ms + [t];
      i := i + 1;
    }
  }

  /** The shared loop of the rook and the bishop: one ray per direction, in order. */
  method ComputeSlides(sq: Squares, p: Piece, dirs: seq<(int, int)>) returns (ms: seq<Pos>)
    ensures ms == Slides(sq, p, dirs)
  {
    ms := [];
    for k := 0 to |dirs|
      invariant ms == Slides(sq, p, dirs[..k])
    {
      var (dx, dy) := dirs[k];
      var ray := ComputeRay(sq, p, dx, dy);
      ms := ms + ray;
      assert dirs[..k + 1][..k] == dirs[..k];
    }
    assert dirs[..|dirs|] == dirs;
  }

  /** The knight's loop over its fixed offsets. */
  method ComputeJumps(sq: Squares, p: Piece, offs: seq<(int, int)>) returns (ms: seq<Pos>)
    ensures ms == Jumps(sq, p, offs)
  {
    ms := [];
    var x, y := p.position.x, p.position.y;
    for k := 0 to |offs|
      invariant ms == Jumps(sq, p, offs[..k])
    {
      assert offs[..k + 1][..k] == offs[..k];
      var (dx, dy) := offs[k];
      var t := Pos(x + dx, y + dy);
      if !(0 <= t.x < 8 && 0 <= t.y < 8) {
        continue;
      }
      if t in sq && sq[t].Some? {
        if sq[t].value.color != p.color {
          ms := ms + [t];
        }
      } else {
        ms := ms + [t];
      }
    }
    assert offs[..|offs|] == offs;
  }

  /** The king's nested loop over the eight neighbouring squares. */
  method ComputeKingMoves(sq: Squares, p: Piece) returns (ms: seq<Pos>)
    ensures ms == KingSweep(sq, p, 3)
  {
    ms := [];
    for a := 0 to 3
      invariant ms == KingSweep(sq, p, a)
    {
      var column := ComputeKingColumn(sq, p, a - 1);
      ms := ms + column;
    }
  }

  /** The inner loop of the king: the three vertical offsets for one sideways offset `dx`. */
  method ComputeKingColumn(sq: Squares, p: Piece, dx: int) returns (ms: seq<Pos>)
    ensures ms == KingColumn(sq, p, dx, 3)
  {
    ms := [];
    var x, y := p.position.x, p.position.y;
    for b := 0 to 3
      invariant ms == KingColumn(sq, p, dx, b)
    {
      var dy := b - 1;
      assert KingColumn(sq, p, dx, b + 1) == KingColumn(sq, p, dx, b) + KingStep(sq, p, dx, dy);
      if dx == 0 && dy == 0 {
        continue;
      }
      var t := Pos(x + dx, y + dy);
      assert t == Offset(p, (dx, dy));
      if !(0 <= t.x < 8 && 0 <= t.y < 8) {
        continue;
      }
      if t in sq && sq[t].Some? {
        if sq[t].value.color != p.color {
          ms := ms + [t];
        }
      } else {
        ms := ms + [t];
      }
    }
  }

  /** Dispatch on the piece type; the queen joins the rook's list and the bishop's. */
  method CandidateMoves(sq: Squares, p: Piece) returns (ms: seq<Pos>)
    ensures ms == Moves(sq, p)
  {
    match p.kind
    case Pawn => ms := ComputePawnMoves(sq, p);
    case Rook => ms := ComputeSlides(sq, p, RookDirections);
    case Bishop => ms := ComputeSlides(sq, p, BishopDirections);
    case Knight => ms := ComputeJumps(sq, p, KnightOffsets);
    case Queen =>
      var straight := ComputeSlides(sq, p, RookDirections);
      var diagonal := ComputeSlides(sq, p, BishopDirections);
      ms := straight + diagonal;
    case King => ms := ComputeKingMoves(sq, p);
    case Unrecognised => ms := [];
  }

  // -------------------------------------------------------------- lemmas

  /** Steps i..j-1 of the ray are all on the board and empty. */
  ghost predicate ClearBetween(sq: Squares, p: Piece, dx: int, dy: int, i: int, j: int) {
    forall m :: i <= m < j ==> InBounds(Step(p, dx, dy, m)) && At(sq, Step(p, dx, dy, m)).None?
  }

  /**
   * A ray is exactly the run of empty squares from step `i` on, followed by
   * the first blocker when that blocker is an enemy; nothing past the first
   * blocker is listed.
   */
  lemma {:induction false} RayShape(sq: Squares, p: Piece, dx: int, dy: int, i: int)
    requires 1 <= i <= 8
    ensures var r := Ray(sq, p, dx, dy, i);
      && |r| <= 8 - i
      && (forall k :: 0 <= k < |r| ==> r[k] == Step(p, dx, dy, i + k))
      && (forall k :: 0 <= k < |r| ==> InBounds(r[k]) && Enterable(sq, p.color, r[k]))
      && (forall k :: 0 <= k < |r| - 1 ==> At(sq, r[k]).None?)
      && (forall j :: i <= j < 8 && ClearBetween(sq, p, dx, dy, i, j)
                   && InBounds(Step(p, dx, dy, j)) && Enterable(sq, p.color, Step(p, dx, dy, j))
                   ==> j - i < |r|)
    decreases 8 - i
  {
    var r := Ray(sq, p, dx, dy, i);
    if i < 8 {
      var t := Step(p, dx, dy, i);
      if InBounds(t) && At(sq, t).None? {
        RayShape(sq, p, dx, dy, i + 1);
        var rest := Ray(sq, p, dx, dy, i + 1);
        assert r == [t] + rest;
        forall j | i <= j < 8 && ClearBetween(sq, p, dx, dy, i, j)
            && InBounds(Step(p, dx, dy, j)) && Enterable(sq, p.color, Step(p, dx, dy, j))
          ensures j - i < |r|
        {
          if j > i {
            assert ClearBetween(sq, p, dx, dy, i + 1, j);
          }
        }
      } else {
        forall j | i <= j < 8 && ClearBetween(sq, p, dx, dy, i, j)
            && InBounds(Step(p, dx, dy, j)) && Enterable(sq, p.color, Step(p, dx, dy, j))
          ensures j - i < |r|
        {
          if j > i {
            assert false;
          }
        }
      }
    }
  }

  /**
   * Every square on a ray is on the board, not held by the mover's colour,
   * not the mover's own square, and a whole number of steps (from `i` up to 7)
   * along the ray's direction.
   */
  lemma {:induction false} RaySound(sq: Squares, p: Piece, dx: int, dy: int, i: int)
    requires 1 <= i
    requires dx != 0 || dy != 0
    ensures forall t :: t in Ray(sq, p, dx, dy, i) ==>
      InBounds(t) && Enterable(sq, p.color, t) && t != p.position
    ensures forall t :: t in Ray(sq, p, dx, dy, i) ==> exists k :: i <= k < 8 && t == Step(p, dx, dy, k)
    decreases 8 - i
  {
    if i < 8 {
      var t := Step(p, dx, dy, i);
      if dx != 0 {
        assert i * dx != 0;
      } else {
        assert i * dy != 0;
      }
      assert t != p.position;
      if InBounds(t) && At(sq, t).None? {
        RaySound(sq, p, dx, dy, i + 1);
        forall t' | t' in Ray(sq, p, dx, dy, i)
          ensures exists k :: i <= k < 8 && t' == Step(p, dx, dy, k)
        {
          if t' != t {
            var k :| i + 1 <= k < 8 && t' == Step(p, dx, dy, k);
          }
        }
      }
    }
  }

  /**
   * Every sliding destination is on the board, not held by the mover's
   * colour, not the mover's own square, and 1 to 7 steps along one of the
   * given directions.
   */
  lemma {:induction false} SlidesSound(sq: Squares, p: Piece, dirs: seq<(int, int)>)
    requires forall k :: 0 <= k < |dirs| ==> dirs[k] != (0, 0)
    ensures forall t :: t in Slides(sq, p, dirs) ==>
      InBounds(t) && Enterable(sq, p.color, t) && t != p.position
    ensures forall t :: t in Slides(sq, p, dirs) ==>
      exists d, k :: d in dirs && 1 <= k < 8 && t == Step(p, d.0, d.1, k)
  {
    if dirs != [] {
      var d := dirs[|dirs| - 1];
      var init := dirs[..|dirs| - 1];
      SlidesSound(sq, p, init);
      RaySound(sq, p, d.0, d.1, 1);
      forall t | t in Slides(sq, p, dirs)
        ensures exists d', k :: d' in dirs && 1 <= k < 8 && t == Step(p, d'.0, d'.1, k)
      {
        if t in Slides(sq, p, init) {
          var d', k :| d' in init && 1 <= k < 8 && t == Step(p, d'.0, d'.1, k);
          assert d' in dirs;
        } else {
          var k :| 1 <= k < 8 && t == Step(p, d.0, d.1, k);
          assert d in dirs;
        }
      }
    }
  }

  /** A jump list holds exactly the listed offsets that land on the board and not on the mover's colour. */
  lemma {:induction false} JumpsMembers(sq: Squares, p: Piece, offs: seq<(int, int)>)
    ensures forall t :: t in Jumps(sq, p, offs) <==>
      (exists k :: 0 <= k < |offs| && t == Offset(p, offs[k])) && InBounds(t) && Enterable(sq, p.color, t)
  {
    if offs != [] {
      var init := offs[..|offs| - 1];
      JumpsMembers(sq, p, init);
      forall t | (exists k :: 0 <= k < |offs| && t == Offset(p, offs[k])) && InBounds(t) && Enterable(sq, p.color, t)
        ensures t in Jumps(sq, p, offs)
      {
        var k :| 0 <= k < |offs| && t == Offset(p, offs[k]);
        if k < |offs| - 1 {
          assert init[k] == offs[k];
        }
      }
      forall t | t in Jumps(sq, p, offs)
        ensures exists k :: 0 <= k < |offs| && t == Offset(p, offs[k])
      {
        if t in Jumps(sq, p, init) {
          var k :| 0 <= k < |init| && t == Offset(p, init[k]);
          assert offs[k] == init[k];
        } else {
          assert t == Offset(p, offs[|offs| - 1]);
        }
      }
    }
  }

  lemma {:induction false} KingColumnMembers(sq: Squares, p: Piece, dx: int, n: nat)
    requires n <= 3
    ensures forall t :: t in KingColumn(sq, p, dx, n) <==>
      && t.x - p.position.x == dx
      && -1 <= t.y - p.position.y <= n - 2
      && t != p.position
      && InBounds(t) && Enterable(sq, p.color, t)
  {
    if n > 0 {
      KingColumnMembers(sq, p, dx, n - 1);
    }
  }

  lemma {:induction false} KingSweepMembers(sq: Squares, p: Piece, n: nat)
    requires n <= 3
    ensures forall t :: t in KingSweep(sq, p, n) <==>
      && -1 <= t.x - p.position.x <= n - 2
      && -1 <= t.y - p.position.y <= 1
      && t != p.position
      && InBounds(t) && Enterable(sq, p.color, t)
  {
    if n > 0 {
      KingSweepMembers(sq, p, n - 1);
      KingColumnMembers(sq, p, n - 2, 3);
    }
  }

  /**
   * The pawn's list is exactly: one step forward onto an empty square; two
   * steps forward when it has never moved and both squares are empty; a
   * diagonal step forward onto an enemy piece.
   */
  lemma PawnRules(sq: Squares, p: Piece)
    ensures var x, y, d := p.position.x, p.position.y, Direction(p.color);
      var one, two := Pos(x, y + d), Pos(x, y + 2 * d);
      && (one in PawnMoves(sq, p) <==> 0 <= one.y < 8 && At(sq, one).None?)
      && (two in PawnMoves(sq, p) <==>
            p.moves == 0 && 0 <= one.y < 8 && At(sq, one).None? && 0 <= two.y < 8 && At(sq, two).None?)
      && (forall dx :: dx in CaptureSides ==>
            (Pos(x + dx, y + d) in PawnMoves(sq, p) <==>
               InBounds(Pos(x + dx, y + d)) && At(sq, Pos(x + dx, y + d)).Some?
               && At(sq, Pos(x + dx, y + d)).value.color != p.color))
      && (forall t :: t in PawnMoves(sq, p) ==>
            t == one || t == two || t == Pos(x - 1, y + d) || t == Pos(x + 1, y + d))
  {
    assert CaptureSides[..1] == [-1];
    assert PawnCaptures(sq, p, CaptureSides[..1]) == PawnCapture(sq, p, -1);
    assert PawnCaptures(sq, p, CaptureSides) == PawnCapture(sq, p, -1) + PawnCapture(sq, p, 1);
  }

  /**
   * No generator offers the mover's own square or a square held by its own
   * colour; for a piece on the board every candidate is on the board (a pawn
   * off the board may step forward off the board, as its x is not checked).
   */
  lemma MovesSound(sq: Squares, p: Piece)
    ensures forall t :: t in Moves(sq, p) ==> Enterable(sq, p.color, t) && t != p.position
    ensures p.kind != Pawn || InBounds(p.position) ==> forall t :: t in Moves(sq, p) ==> InBounds(t)
  {
    match p.kind
    case Pawn =>
      PawnRules(sq, p);
      var x, y, d := p.position.x, p.position.y, Direction(p.color);
      assert -1 in CaptureSides && 1 in CaptureSides;
      forall t | t in Moves(sq, p)
        ensures Enterable(sq, p.color, t) && t != p.position
        ensures InBounds(p.position) ==> InBounds(t)
      {
        if t != Pos(x, y + d) && t != Pos(x, y + 2 * d) {
          assert t == Pos(x - 1, y + d) || t == Pos(x + 1, y + d);
        }
      }
    case Rook => SlidesSound(sq, p, RookDirections);
    case Bishop => SlidesSound(sq, p, BishopDirections);
    case Knight => JumpsMembers(sq, p, KnightOffsets);
    case Queen =>
      SlidesSound(sq, p, RookDirections);
      SlidesSound(sq, p, BishopDirections);
    case King => KingSweepMembers(sq, p, 3);
    case Unrecognised =>
  }

  /** The knight's list is exactly the L offsets that land on the board and not on its own colour. */
  lemma KnightRule(sq: Squares, p: Piece)
    requires p.kind == Knight
    ensures forall t :: t in Moves(sq, p) <==>
      (exists k :: 0 <= k < 8 && t == Offset(p, KnightOffsets[k])) && InBounds(t) && Enterable(sq, p.color, t)
  {
    JumpsMembers(sq, p, KnightOffsets);
  }

  /** The king's list is exactly the eight neighbours that are on the board and not held by its own colour. */
  lemma KingRule(sq: Squares, p: Piece)
    requires p.kind == King
    ensures forall t :: t in Moves(sq, p) <==>
      && -1 <= t.x - p.position.x <= 1
      && -1 <= t.y - p.position.y <= 1
      && t != p.position
      && InBounds(t) && Enterable(sq, p.color, t)
  {
    KingSweepMembers(sq, p, 3);
  }
}
