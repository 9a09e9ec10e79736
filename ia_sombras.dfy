/**
 * The boss's opponent logic in the shadows mode (ajedrez_sombras/ia_sombras.py):
 * choosing the enemy's move by priority (attack, approach the player's king,
 * anything), and summoning a shadow pawn next to the boss.
 *
 * The unit classes' own move rules are not part of this model: the candidate
 * destinations of each enemy unit are an input, aligned with the enemy units
 * in collection order. The random draws are inputs too: `roll` stands for
 * `random.random()` and `pick` selects an element of a list by its remainder.
 */
module ShadowsAI {
  import opened Wrappers
  import opened Shadows

  function Abs(n: int): int {
    if n < 0 then -n else n
  }

  /** Manhattan distance between two cells: never negative, zero exactly for the same cell. */
  function Manhattan(a: (int, int), b: (int, int)): (d: int)
    ensures d >= 0
    ensures d == 0 <==> a == b
  {
    Abs(a.0 - b.0) + Abs(a.1 - b.1)
  }

  /** The distance does not depend on the order of the two cells. */
  lemma ManhattanSymmetric(a: (int, int), b: (int, int))
    ensures Manhattan(a, b) == Manhattan(b, a)
  {
  }

  /**
   * The position of the first candidate at the least distance from `k`: the head
   * of the candidates after a stable sort by that distance.
   */
  function ClosestFirst(ms: seq<(int, int)>, k: (int, int)): (i: nat)
    requires |ms| > 0
    ensures i < |ms|
    ensures forall j :: 0 <= j < |ms| ==> Manhattan(ms[i], k) <= Manhattan(ms[j], k)
    ensures forall j :: 0 <= j < i ==> Manhattan(ms[j], k) > Manhattan(ms[i], k)
  {
    if |ms| == 1 then 0
    else
      var i := ClosestFirst(ms[..|ms| - 1], k);
      if Manhattan(ms[|ms| - 1], k) < Manhattan(ms[i], k) then |ms| - 1 else i
  }

  /** The eight neighbour offsets, in the order the summon tries them. */
  const NeighbourOffsets: seq<(int, int)> := [(-1, 0), (1, 0), (0, -1), (0, 1), (-1, -1), (-1, 1), (1, -1), (1, 1)]

  /** A neighbour of (cx, cy): one step away in any direction, but not the cell itself. */
  predicate Adjacent(cx: int, cy: int, c: (int, int)) {
    Near(cx, cy, c.0, c.1) && c != (cx, cy)
  }

  /** Every neighbour of (cx, cy) is reached by one of the eight offsets. */
  function OffsetOf(cx: int, cy: int, c: (int, int)): (k: nat)
    requires Adjacent(cx, cy, c)
    ensures k < |NeighbourOffsets| && c == (cx + NeighbourOffsets[k].0, cy + NeighbourOffsets[k].1)
  {
    var dx, dy := c.0 - cx, c.1 - cy;
    if dx == -1 && dy == 0 then 0
    else if dx == 1 && dy == 0 then 1
    else if dx == 0 && dy == -1 then 2
    else if dx == 0 && dy == 1 then 3
    else if dx == -1 && dy == -1 then 4
    else if dx == -1 && dy == 1 then 5
    else if dx == 1 && dy == -1 then 6
    else 7
  }

  /**
   * The summon probability: the literal 0.3 as a double, which is exactly
   * 5404319552844595 / 2^54, a little below 3/10. A draw equal to 3/10 is
   * not below it.
   */
  const SummonChance: real := 5404319552844595.0 / 18014398509481984.0

  class BossAI {
    const board: Board
    /** turno_invocacion: set to zero and never read or changed. */
    var summonTurn: int

    constructor (board: Board)
      ensures this.board == board && summonTurn == 0
    {
      this.board := board;
      summonTurn := 0;
    }

    /** The cell holds a unit of the player. */
    predicate Targets(m: (int, int))
      requires board.Valid()
      reads this, board, board.grid, board.pieces
    {
      var t := board.PieceAt(m.0, m.1);
      t != null && t.team == Player
    }

    /**
     * The enemy's move. First the first candidate, enemy by enemy and in
     * candidate order, that lands on a player unit; failing that, when the
     * player's king is on the board, the first enemy with candidates goes to
     * the one closest to the king; failing that, the first enemy with
     * candidates goes to the one `pick` selects. None when no enemy has any.
     */
    method CalculateMove(cands: seq<seq<(int, int)>>, pick: nat) returns (r: Option<(Unit, int, int)>)
      requires board.Valid()
      requires |cands| == |board.PiecesOf(Enemy)|
      ensures r.None? <==> forall i :: 0 <= i < |cands| ==> cands[i] == []
      ensures r.Some? ==> exists i :: 0 <= i < |cands| && r.value.0 == board.PiecesOf(Enemy)[i]
                                      && (r.value.1, r.value.2) in cands[i]
      ensures (exists i, j :: 0 <= i < |cands| && 0 <= j < |cands[i]| && Targets(cands[i][j])) ==>
        exists i, j :: 0 <= i < |cands| && 0 <= j < |cands[i]| && Targets(cands[i][j])
          && r == Some((board.PiecesOf(Enemy)[i], cands[i][j].0, cands[i][j].1))
          && (forall i', j' :: 0 <= i' < i && 0 <= j' < |cands[i']| ==> !Targets(cands[i'][j']))
          && (forall j' :: 0 <= j' < j ==> !Targets(cands[i][j']))
      ensures (forall i, j :: 0 <= i < |cands| && 0 <= j < |cands[i]| ==> !Targets(cands[i][j])) ==>
        forall i :: 0 <= i < |cands| && cands[i] != [] && (forall i' :: 0 <= i' < i ==> cands[i'] == []) ==>
          var m :=
            if FindPlayerKing(board.pieces).Some? then
              var king := FindPlayerKing(board.pieces).value;
              cands[i][ClosestFirst(cands[i], (king.gx, king.gy))]
            else
              cands[i][pick % |cands[i]|];
          r == Some((board.PiecesOf(Enemy)[i], m.0, m.1))
    {
      var enemies := board.PiecesOf(Enemy);
      var attack, i, j := FirstAttack(cands);
      if attack {
        r := Some((enemies[i], cands[i][j].0, cands[i][j].1));
        assert cands[i][j] in cands[i];
        return;
      }
      var king := FindPlayerKing(board.pieces);
      var some, k := FirstWithMoves(cands);
      if some {
        assert forall i' :: 0 <= i' < |cands| && cands[i'] != [] && (forall i'' :: 0 <= i'' < i' ==> cands[i''] == []) ==> i' == k;
        if king.Some? {
          var kingCell := (king.value.gx, king.value.gy);
          var best := cands[k][ClosestFirst(cands[k], kingCell)];
          r := Some((enemies[k], best.0, best.1));
        } else {
          var m := cands[k][pick % |cands[k]|];
          r := Some((enemies[k], m.0, m.1));
        }
        assert (r.value.1, r.value.2) in cands[k];
        return;
      }
      return None;
    }

    /** The first candidate, enemy by enemy and in candidate order, that lands on a player unit. */
    method FirstAttack(cands: seq<seq<(int, int)>>) returns (found: bool, i: nat, j: nat)
      requires board.Valid()
      ensures found ==> i < |cands| && j < |cands[i]| && Targets(cands[i][j])
      ensures found ==> forall i', j' :: 0 <= i' < i && 0 <= j' < |cands[i']| ==> !Targets(cands[i'][j'])
      ensures found ==> forall j' :: 0 <= j' < j ==> !Targets(cands[i][j'])
      ensures !found ==> forall i', j' :: 0 <= i' < |cands| && 0 <= j' < |cands[i']| ==> !Targets(cands[i'][j'])
    {
      i := 0;
      while i < |cands|
        invariant 0 <= i <= |cands|
        invariant forall i', j' :: 0 <= i' < i && 0 <= j' < |cands[i']| ==> !Targets(cands[i'][j'])
      {
        found, j := FirstTarget(cands[i]);
        if found {
          return;
        }
        i := i + 1;
      }
      found, j := false, 0;
    }

    /** The first of one enemy's candidates that lands on a player unit. */
    method FirstTarget(moves: seq<(int, int)>) returns (found: bool, j: nat)
      requires board.Valid()
      ensures found ==> j < |moves| && Targets(moves[j]) && forall j' :: 0 <= j' < j ==> !Targets(moves[j'])
      ensures !found ==> forall j' :: 0 <= j' < |moves| ==> !Targets(moves[j'])
    {
      j := 0;
      while j < |moves|
        invariant 0 <= j <= |moves|
        invariant forall j' :: 0 <= j' < j ==> !Targets(moves[j'])
      {
        var (x, y) := moves[j];
        var target := board.PieceAt(x, y);
        if target != null && target.team == Player {
          return true, j;
        }
        j := j + 1;
      }
      found := false;
    }

    /** The first enemy with at least one candidate. */
    method FirstWithMoves(cands: seq<seq<(int, int)>>) returns (found: bool, k: nat)
      ensures found ==> k < |cands| && cands[k] != [] && forall k' :: 0 <= k' < k ==> cands[k'] == []
      ensures !found ==> forall k' :: 0 <= k' < |cands| ==> cands[k'] == []
    {
      for i := 0 to |cands|
        invariant forall k' :: 0 <= k' < i ==> cands[k'] == []
      {
        if cands[i] != [] {
          return true, i;
        }
      }
      return false, 0;
    }

    /** The empty cells of the grid next to (cx, cy), in the order of the neighbour offsets. */
    method FreeNeighbours(cx: int, cy: int) returns (free: seq<(int, int)>)
      requires board.Valid()
      ensures forall c :: c in free <==> Adjacent(cx, cy, c) && OnGrid(c.0, c.1) && board.PieceAt(c.0, c.1) == null
    {
      free := [];
      for k := 0 to |NeighbourOffsets|
        invariant forall c :: c in free ==> Adjacent(cx, cy, c) && OnGrid(c.0, c.1) && board.PieceAt(c.0, c.1) == null
        invariant forall k' :: 0 <= k' < k ==>
          var c := (cx + NeighbourOffsets[k'].0, cy + NeighbourOffsets[k'].1);
          OnGrid(c.0, c.1) && board.PieceAt(c.0, c.1) == null ==> c in free
      {
        var (dx, dy) := NeighbourOffsets[k];
        var nx, ny := cx + dx, cy + dy;
        if 0 <= nx < Size && 0 <= ny < Size && board.PieceAt(nx, ny) == null {
          free := free + [(nx, ny)];
        }
      }
      forall c | Adjacent(cx, cy, c) && OnGrid(c.0, c.1) && board.PieceAt(c.0, c.1) == null
        ensures c in free
      {
        var k := OffsetOf(cx, cy, c);
      }
    }

    /**
     * With probability 0.3 (`roll` below it) and a boss on the board, adds an
     * enemy pawn on one of the empty cells next to the boss, chosen by `pick`.
     * Without a boss or an empty neighbour, or on a higher roll, nothing changes.
     */
    method InvokeShadow(roll: real, pick: nat) returns (summoned: bool)
      requires board.Valid()
      modifies board, board.grid
      ensures board.Valid()
      ensures board.grid == old(board.grid) && board.fog == old(board.fog)
      ensures summoned <==>
        && roll < SummonChance
        && FindBoss(old(board.pieces)).Some?
        && exists c :: Adjacent(old(FindBoss(board.pieces).value.gx), old(FindBoss(board.pieces).value.gy), c)
                       && OnGrid(c.0, c.1) && old(board.PieceAt(c.0, c.1)) == null
      ensures !summoned ==>
        board.pieces == old(board.pieces) && forall y, x :: OnGrid(x, y) ==> board.grid[y, x] == old(board.grid[y, x])
      ensures summoned ==>
        && |board.pieces| == |old(board.pieces)| + 1
        && board.pieces[..|old(board.pieces)|] == old(board.pieces)
        && var s := board.pieces[|old(board.pieces)|];
        && var sx, sy := s.gx, s.gy;
        && fresh(s) && s.team == Enemy && s.kind == Pawn && !s.isBoss
        && Adjacent(old(FindBoss(board.pieces).value.gx), old(FindBoss(board.pieces).value.gy), (sx, sy))
        && old(board.PieceAt(sx, sy)) == null
        && board.grid[sy, sx] == s
        && forall y, x :: OnGrid(x, y) && (x, y) != (sx, sy) ==> board.grid[y, x] == old(board.grid[y, x])
    {
      if roll < SummonChance {
        var boss := FindBoss(board.pieces);
        if boss.Some? {
          var free := FreeNeighbours(boss.value.gx, boss.value.gy);
          if free != [] {
            var (x, y) := free[pick % |free|];
            var shadow := new Unit(x, y, Enemy, Pawn, false);
            board.AddPiece(shadow);
            return true;
          } else {
            assert forall c :: !(c in free);
          }
        }
      }
      return false;
    }
  }
}
