/**
 * The board of the shadows mode (ajedrez_sombras/tablero_sombras.py): an 8x8
 * grid of units kept in step with the collection of units on the board, fog of
 * war around one side's units, and combat in which the attacker kills the
 * target and takes its cell, wounds it and stays, or simply moves.
 */
module Shadows {
  import opened Wrappers

  /** GRID_WIDTH and GRID_HEIGHT. */
  const Size := 8

  /** TEAM_PLAYER and TEAM_ENEMY. */
  datatype Team = Player | Enemy

  /** The unit classes of the mode; the king class is the one whose type tag is "REY". */
  datatype UnitKind = Pawn | Knight | Bishop | Rook | Queen | King

  /** A unit: its grid cell, its side, its class and whether it is the boss. */
  class Unit {
    var gx: int
    var gy: int
    const team: Team
    const kind: UnitKind
    const isBoss: bool

    constructor (x: int, y: int, team: Team, kind: UnitKind, isBoss: bool)
      ensures gx == x && gy == y
      ensures this.team == team && this.kind == kind && this.isBoss == isBoss
    {
      gx, gy := x, y;
      this.team, this.kind, this.isBoss := team, kind, isBoss;
    }
  }

  predicate OnGrid(x: int, y: int) {
    0 <= x < Size && 0 <= y < Size
  }

  /** Cell (x, y) lies within one step, in any direction, of (cx, cy). */
  predicate Near(cx: int, cy: int, x: int, y: int) {
    -1 <= x - cx <= 1 && -1 <= y - cy <= 1
  }

  predicate Distinct(ps: seq<Unit>) {
    forall i, j :: 0 <= i < j < |ps| ==> ps[i] != ps[j]
  }

  // ------------------------------------------------------------ queries

  /** The units of `team`, in collection order. */
  function TeamOf(ps: seq<Unit>, team: Team): (r: seq<Unit>)
    ensures forall i :: 0 <= i < |r| ==> r[i] in ps && r[i].team == team
    ensures forall i :: 0 <= i < |ps| && ps[i].team == team ==> ps[i] in r
    ensures |r| <= |ps|
    ensures Distinct(ps) ==> Distinct(r)
  {
    if ps == [] then []
    else
      var rest := TeamOf(ps[1..], team);
      assert forall u :: u in ps[1..] ==> u in ps;
      if ps[0].team == team then [ps[0]] + rest else rest
  }

  /** `u` stands somewhere before `v` in the collection. */
  predicate Precedes(ps: seq<Unit>, u: Unit, v: Unit) {
    exists i, j :: 0 <= i < j < |ps| && ps[i] == u && ps[j] == v
  }

  /** Order in the tail of the collection is order in the collection. */
  lemma PrecedesTail(ps: seq<Unit>, u: Unit, v: Unit)
    requires ps != [] && Precedes(ps[1..], u, v)
    ensures Precedes(ps, u, v)
  {
    var i, j :| 0 <= i < j < |ps| - 1 && ps[1..][i] == u && ps[1..][j] == v;
    assert ps[i + 1] == u && ps[j + 1] == v;
  }

  /** The head of the collection precedes every unit of its tail. */
  lemma PrecedesHead(ps: seq<Unit>, v: Unit)
    requires ps != [] && v in ps[1..]
    ensures Precedes(ps, ps[0], v)
  {
    var j :| 0 <= j < |ps| - 1 && ps[1..][j] == v;
    assert ps[j + 1] == v;
  }

  /** Any two selected units stand in the collection in the order they are selected. */
  lemma {:induction false} TeamOfInOrder(ps: seq<Unit>, team: Team)
    ensures forall a, b :: 0 <= a < b < |TeamOf(ps, team)| ==> Precedes(ps, TeamOf(ps, team)[a], TeamOf(ps, team)[b])
  {
    if ps != [] {
      var rest := TeamOf(ps[1..], team);
      var r := TeamOf(ps, team);
      TeamOfInOrder(ps[1..], team);
      if ps[0].team == team {
        assert r == [ps[0]] + rest;
        forall a, b | 0 <= a < b < |r|
          ensures Precedes(ps, r[a], r[b])
        {
          if a == 0 {
            PrecedesHead(ps, rest[b - 1]);
          } else {
            PrecedesTail(ps, rest[a - 1], rest[b - 1]);
          }
        }
      } else {
        assert r == rest;
        forall a, b | 0 <= a < b < |r|
          ensures Precedes(ps, r[a], r[b])
        {
          PrecedesTail(ps, rest[a], rest[b]);
        }
      }
    }
  }

  predicate IsBoss(u: Unit) {
    u.team == Enemy && u.isBoss
  }

  predicate IsPlayerKing(u: Unit) {
    u.team == Player && u.kind == King
  }

  /** The first enemy boss in collection order, if any. */
  function FindBoss(ps: seq<Unit>): (r: Option<Unit>)
    ensures r.None? <==> forall i :: 0 <= i < |ps| ==> !IsBoss(ps[i])
    ensures r.Some? ==> exists i :: 0 <= i < |ps| && ps[i] == r.value && IsBoss(r.value)
                          && forall j :: 0 <= j < i ==> !IsBoss(ps[j])
  {
    if ps == [] then None
    else if IsBoss(ps[0]) then Some(ps[0])
    else
      var r := FindBoss(ps[1..]);
      assert r.Some? ==> exists i :: 0 <= i < |ps| && ps[i] == r.value && IsBoss(r.value)
                          && forall j :: 0 <= j < i ==> !IsBoss(ps[j]) by {
        if r.Some? {
          var i :| 0 <= i < |ps[1..]| && ps[1..][i] == r.value && IsBoss(r.value)
                   && forall j :: 0 <= j < i ==> !IsBoss(ps[1..][j]);
          assert ps[i + 1] == r.value;
        }
      }
      r
  }

  /** The first player king in collection order, if any. */
  function FindPlayerKing(ps: seq<Unit>): (r: Option<Unit>)
    ensures r.None? <==> forall i :: 0 <= i < |ps| ==> !IsPlayerKing(ps[i])
    ensures r.Some? ==> exists i :: 0 <= i < |ps| && ps[i] == r.value && IsPlayerKing(r.value)
                          && forall j :: 0 <= j < i ==> !IsPlayerKing(ps[j])
  {
    if ps == [] then None
    else if IsPlayerKing(ps[0]) then Some(ps[0])
    else
      var r := FindPlayerKing(ps[1..]);
      assert r.Some? ==> exists i :: 0 <= i < |ps| && ps[i] == r.value && IsPlayerKing(r.value)
                          && forall j :: 0 <= j < i ==> !IsPlayerKing(ps[j]) by {
        if r.Some? {
          var i :| 0 <= i < |ps[1..]| && ps[1..][i] == r.value && IsPlayerKing(r.value)
                   && forall j :: 0 <= j < i ==> !IsPlayerKing(ps[1..][j]);
          assert ps[i + 1] == r.value;
        }
      }
      r
  }

  /** The collection without `t`, as removing a unit from the sprite group leaves it. */
  function Remove(ps: seq<Unit>, t: Unit): (r: seq<Unit>)
    ensures forall i :: 0 <= i < |r| ==> r[i] in ps && r[i] != t
    ensures forall i :: 0 <= i < |ps| && ps[i] != t ==> ps[i] in r
    ensures Distinct(ps) ==> Distinct(r)
  {
    if ps == [] then []
    else
      var rest := Remove(ps[1..], t);
      assert forall u :: u in ps[1..] ==> u in ps;
      if ps[0] == t then rest else [ps[0]] + rest
  }

  // -------------------------------------------------------------- layout

  /** One unit of the opening layout: cell, side, class and boss flag. */
  datatype Placement = Placement(x: int, y: int, team: Team, kind: UnitKind, boss: bool)

  /** The opening layout in the order units are added: the player on rows 7 and 6, the enemy on rows 0 and 1. */
  function Setup(): seq<Placement> {
    [ Placement(0, 7, Player, Rook, false), Placement(1, 7, Player, Knight, false),
      Placement(2, 7, Player, Bishop, false), Placement(3, 7, Player, Queen, false),
      Placement(4, 7, Player, King, false), Placement(5, 7, Player, Bishop, false),
      Placement(6, 7, Player, Knight, false), Placement(7, 7, Player, Rook, false) ]
    + seq(8, x => Placement(x, 6, Player, Pawn, false))
    + [ Placement(0, 0, Enemy, Rook, false), Placement(1, 0, Enemy, Knight, false),
        Placement(2, 0, Enemy, Bishop, false), Placement(3, 0, Enemy, Queen, false),
        Placement(4, 0, Enemy, King, true), Placement(5, 0, Enemy, Bishop, false),
        Placement(6, 0, Enemy, Knight, false), Placement(7, 0, Enemy, Rook, false) ]
    + seq(8, x => Placement(x, 1, Enemy, Pawn, false))
  }

  /** The row of the `b`-th block of eight entries in the opening layout. */
  function SetupRow(b: int): int {
    if b == 0 then 7 else if b == 1 then 6 else if b == 2 then 0 else 1
  }

  /** Entry `k` of the opening layout: its cell follows its block and place in the block; only entry 20 is the boss. */
  lemma SetupEntries()
    ensures |Setup()| == 32
    ensures forall k :: 0 <= k < 32 ==>
      && Setup()[k].x == k % 8 && Setup()[k].y == SetupRow(k / 8)
      && Setup()[k].team == (if k < 16 then Player else Enemy)
      && (Setup()[k].kind == Pawn <==> k / 8 == 1 || k / 8 == 3)
      && (Setup()[k].kind == King <==> k == 4 || k == 20)
      && (Setup()[k].boss <==> k == 20)
  {
    var s := Setup();
    forall k | 0 <= k < 32
      ensures s[k].x == k % 8 && s[k].y == SetupRow(k / 8)
      ensures s[k].team == (if k < 16 then Player else Enemy)
      ensures s[k].kind == Pawn <==> k / 8 == 1 || k / 8 == 3
      ensures s[k].kind == King <==> k == 4 || k == 20
      ensures s[k].boss <==> k == 20
    {
      if k == 0 {} else if k == 1 {} else if k == 2 {} else if k == 3 {}
      else if k == 4 {} else if k == 5 {} else if k == 6 {} else if k == 7 {}
      else if k < 16 {}
      else if k == 16 {} else if k == 17 {} else if k == 18 {} else if k == 19 {}
      else if k == 20 {} else if k == 21 {} else if k == 22 {} else if k == 23 {}
      else {}
    }
  }

  /** The layout's cells are on the grid and pairwise different. */
  lemma SetupCells()
    ensures |Setup()| == 32
    ensures forall k :: 0 <= k < 32 ==> OnGrid(Setup()[k].x, Setup()[k].y)
    ensures forall i, j :: 0 <= i < j < 32 ==> (Setup()[i].x, Setup()[i].y) != (Setup()[j].x, Setup()[j].y)
  {
    SetupEntries();
    forall i, j | 0 <= i < j < 32
      ensures (Setup()[i].x, Setup()[i].y) != (Setup()[j].x, Setup()[j].y)
    {
      if i / 8 != j / 8 {
        assert SetupRow(i / 8) != SetupRow(j / 8);
      } else {
        assert i % 8 != j % 8;
      }
    }
  }

  /** The unit stands where the layout entry says and has its side, class and boss flag. */
  predicate Placed(u: Unit, e: Placement)
    reads u
  {
    u.gx == e.x && u.gy == e.y && u.team == e.team && u.kind == e.kind && u.isBoss == e.boss
  }

  /** Units laid out as the opening: entry 20 alone is the boss, on (4, 0), and entry 4 is the player's king. */
  lemma OpeningLeaders(units: seq<Unit>)
    requires |units| == 32
    requires forall k :: 0 <= k < 32 ==> Placed(units[k], Setup()[k])
    ensures forall k :: 0 <= k < 32 ==> (IsBoss(units[k]) <==> k == 20)
    ensures units[20].gx == 4 && units[20].gy == 0 && units[20].kind == King
    ensures IsBoss(units[20]) && IsPlayerKing(units[4])
  {
    SetupEntries();
  }

  // --------------------------------------------------------------- board

  class Board {
    /** grid[y, x]: the unit on cell (x, y), or null. */
    var grid: array2<Unit?>
    /** fog[y, x]: cell (x, y) is hidden. */
    var fog: array2<bool>
    /** The units on the board, in the order they were added. */
    var pieces: seq<Unit>

    /**
     * The grid is 8x8; every unit of the collection stands on the grid cell
     * it records, each cell holds at most that unit, and no unit is listed twice.
     */
    ghost predicate Valid()
      reads this, grid, pieces
    {
      && grid.Length0 == Size && grid.Length1 == Size
      && fog.Length0 == Size && fog.Length1 == Size
      && Distinct(pieces)
      && (forall u :: u in pieces ==> OnGrid(u.gx, u.gy) && grid[u.gy, u.gx] == u)
      && (forall y, x :: OnGrid(x, y) && grid[y, x] != null ==>
            grid[y, x] in pieces && grid[y, x].gx == x && grid[y, x].gy == y)
    }

    /**
     * An empty grid, the opening layout added unit by unit, then the fog seen
     * by the player. Exactly one unit is the boss, the enemy king on (4, 0).
     */
    constructor ()
      ensures Valid()
      ensures |pieces| == 32
      ensures forall k :: 0 <= k < 32 ==> Placed(pieces[k], Setup()[k])
      ensures forall k :: 0 <= k < 32 ==> (IsBoss(pieces[k]) <==> k == 20)
      ensures pieces[20].gx == 4 && pieces[20].gy == 0 && pieces[20].kind == King
      ensures !BossDead() && !PlayerDead()
      ensures forall y, x :: OnGrid(x, y) ==> (fog[y, x] <==> Hidden(x, y, Player))
    {
      grid := new Unit?[Size, Size]((y, x) => null);
      fog := new bool[Size, Size]((y, x) => true);
      pieces := [];
      new;
      Configure();
      UpdateFog(Player);
      OpeningLeaders(pieces);
    }

    /** Adds the opening layout, unit by unit, to an empty board. */
    method Configure()
      requires Valid() && pieces == []
      requires forall y, x :: OnGrid(x, y) ==> grid[y, x] == null
      modifies this, grid
      ensures Valid() && grid == old(grid) && fog == old(fog)
      ensures |pieces| == 32
      ensures forall k :: 0 <= k < 32 ==> Placed(pieces[k], Setup()[k])
    {
      SetupCells();
      var layout := Setup();
      for k := 0 to 32
        invariant Valid() && grid == old(grid) && fog == old(fog)
        invariant |pieces| == k
        invariant forall j :: 0 <= j < k ==> Placed(pieces[j], layout[j])
        invariant forall j :: k <= j < 32 ==> grid[layout[j].y, layout[j].x] == null
      {
        var e := layout[k];
        var u := new Unit(e.x, e.y, e.team, e.kind, e.boss);
        AddPiece(u);
      }
    }

    /** The unit on (x, y); nothing outside the grid. */
    function PieceAt(x: int, y: int): (u: Unit?)
      requires Valid()
      reads this, grid, pieces
      ensures u != null ==> OnGrid(x, y) && u in pieces && u.gx == x && u.gy == y
      ensures u == null ==> forall v :: v in pieces ==> v.gx != x || v.gy != y
    {
      if OnGrid(x, y) then grid[y, x] else null
    }

    /** The units of `team`, in collection order. */
    function PiecesOf(team: Team): (r: seq<Unit>)
      reads this
      ensures forall i :: 0 <= i < |r| ==> r[i] in pieces && r[i].team == team
      ensures forall i :: 0 <= i < |pieces| && pieces[i].team == team ==> pieces[i] in r
      ensures forall a, b :: 0 <= a < b < |r| ==> Precedes(pieces, r[a], r[b])
    {
      TeamOfInOrder(pieces, team);
      TeamOf(pieces, team)
    }

    /** The boss is dead: no enemy unit on the board is the boss. */
    function BossDead(): (r: bool)
      reads this
      ensures r <==> forall u :: u in pieces ==> !IsBoss(u)
    {
      FindBoss(pieces).None?
    }

    /** The player has lost: no player unit on the board is a king. */
    function PlayerDead(): (r: bool)
      reads this
      ensures r <==> forall u :: u in pieces ==> !IsPlayerKing(u)
    {
      FindPlayerKing(pieces).None?
    }

    /** Every unit of `team` is more than one step away from (x, y). */
    ghost predicate Hidden(x: int, y: int, team: Team)
      reads this, pieces
    {
      HiddenAmong(|pieces|, x, y, team)
    }

    /** Places `u` on its cell when that cell is empty; an occupied cell leaves everything as it was. */
    method AddPiece(u: Unit)
      requires Valid() && OnGrid(u.gx, u.gy)
      modifies this, grid
      ensures Valid()
      ensures grid == old(grid) && fog == old(fog)
      ensures old(grid[u.gy, u.gx]) == null ==>
        && pieces == old(pieces) + [u]
        && grid[u.gy, u.gx] == u
        && forall y, x :: OnGrid(x, y) && (x, y) != (u.gx, u.gy) ==> grid[y, x] == old(grid[y, x])
      ensures old(grid[u.gy, u.gx]) != null ==>
        pieces == old(pieces) && forall y, x :: OnGrid(x, y) ==> grid[y, x] == old(grid[y, x])
    {
      if grid[u.gy, u.gx] == null {
        grid[u.gy, u.gx] := u;
        pieces := pieces + [u];
      }
    }

    /**
     * Moves `u` to (x, y) and then lets the unit's after-move hook act on the
     * board. The hook is unseen code; it is given as the units it places,
     * each through `AddPiece`. The hook runs only when `u` changed cell.
     */
    method MovePiece(u: Unit, x: int, y: int, dies: bool, minions: seq<Unit>) returns (ok: bool)
      requires Valid() && u in pieces && OnGrid(x, y)
      requires forall m :: m in minions ==> OnGrid(m.gx, m.gy)
      modifies this, grid, u
      ensures Valid()
      ensures grid == old(grid) && fog == old(fog)
      ensures ok <==> old(grid[y, x]) == null || old(grid[y, x]).team != u.team
      ensures old(grid[y, x]) != null && (old(grid[y, x]).team == u.team || !dies) ==>
        && pieces == old(pieces) && u.gx == old(u.gx) && u.gy == old(u.gy)
        && forall j, i :: OnGrid(i, j) ==> grid[j, i] == old(grid[j, i])
      ensures old(grid[y, x]) == null || (old(grid[y, x]).team != u.team && dies) ==>
        && u.gx == x && u.gy == y && grid[y, x] == u
        && (grid[old(u.gy), old(u.gx)] == null || grid[old(u.gy), old(u.gx)] in minions)
        && forall j, i :: OnGrid(i, j) && (i, j) != (x, y) && (i, j) != (old(u.gx), old(u.gy)) ==>
             grid[j, i] == old(grid[j, i]) || (old(grid[j, i]) == null && grid[j, i] in minions)
      ensures old(grid[y, x]) == null || (old(grid[y, x]).team != u.team && dies) ==>
        var moved := if old(grid[y, x]) == null then old(pieces) else Remove(old(pieces), old(grid[y, x]));
        && |moved| <= |pieces| && pieces[..|moved|] == moved
        && (forall k :: |moved| <= k < |pieces| ==> pieces[k] in minions)
        && forall m :: m in minions ==> grid[m.gy, m.gx] != null
    {
      var target := PieceAt(x, y);
      ok := Relocate(u, x, y, dies);
      if ok && (target == null || dies) {
        PlaceMinions(minions);
      }
    }

    /**
     * The board effect of the after-move hook: each unit of `ms` in turn is
     * added to the board, and one whose cell is taken by then is left out.
     */
    method PlaceMinions(ms: seq<Unit>)
      requires Valid()
      requires forall m :: m in ms ==> OnGrid(m.gx, m.gy)
      modifies this, grid
      ensures Valid() && grid == old(grid) && fog == old(fog)
      ensures |old(pieces)| <= |pieces| && pieces[..|old(pieces)|] == old(pieces)
      ensures forall k :: |old(pieces)| <= k < |pieces| ==> pieces[k] in ms
      ensures forall y, x :: OnGrid(x, y) ==>
        grid[y, x] == old(grid[y, x]) || (old(grid[y, x]) == null && grid[y, x] in ms)
      ensures forall m :: m in ms ==> grid[m.gy, m.gx] != null
    {
      for k := 0 to |ms|
        invariant Valid() && grid == old(grid) && fog == old(fog)
        invariant |old(pieces)| <= |pieces| && pieces[..|old(pieces)|] == old(pieces)
        invariant forall n :: |old(pieces)| <= n < |pieces| ==> pieces[n] in ms
        invariant forall y, x :: OnGrid(x, y) ==>
          grid[y, x] == old(grid[y, x]) || (old(grid[y, x]) == null && grid[y, x] in ms)
        invariant forall j :: 0 <= j < k ==> grid[ms[j].gy, ms[j].gx] != null
      {
        AddPiece(ms[k]);
      }
    }

    /**
     * The move itself. An enemy on (x, y) is attacked: when the blow kills it
     * (`dies`) it leaves the board and `u` takes its cell; otherwise both stay
     * where they are. A unit of `u`'s own side there refuses the move; an empty
     * cell is a plain move.
     */
    method Relocate(u: Unit, x: int, y: int, dies: bool) returns (ok: bool)
      requires Valid() && u in pieces && OnGrid(x, y)
      modifies this, grid, u
      ensures Valid()
      ensures grid == old(grid) && fog == old(fog)
      ensures ok <==> old(grid[y, x]) == null || old(grid[y, x]).team != u.team
      ensures old(grid[y, x]) != null && (old(grid[y, x]).team == u.team || !dies) ==>
        && pieces == old(pieces) && u.gx == old(u.gx) && u.gy == old(u.gy)
        && forall j, i :: OnGrid(i, j) ==> grid[j, i] == old(grid[j, i])
      ensures old(grid[y, x]) == null || (old(grid[y, x]).team != u.team && dies) ==>
        && pieces == (if old(grid[y, x]) == null then old(pieces) else Remove(old(pieces), old(grid[y, x])))
        && u.gx == x && u.gy == y && grid[y, x] == u && grid[old(u.gy), old(u.gx)] == null
        && forall j, i :: OnGrid(i, j) && (i, j) != (x, y) && (i, j) != (old(u.gx), old(u.gy)) ==>
             grid[j, i] == old(grid[j, i])
    {
      var target := PieceAt(x, y);
      if target != null {
        if target.team != u.team {
          if dies {
            pieces := Remove(pieces, target);
            grid[y, x] := null;
            Shift(u, x, y);
            return true;
          } else {
            return true;
          }
        }
      }
      var free := PieceAt(x, y);
      if free == null {
        Shift(u, x, y);
        return true;
      }
      return false;
    }

    /** Takes `u` off its cell and puts it on the empty cell (x, y). */
    method Shift(u: Unit, x: int, y: int)
      requires Valid() && u in pieces && OnGrid(x, y) && grid[y, x] == null
      modifies grid, u
      ensures Valid()
      ensures u.gx == x && u.gy == y && grid[y, x] == u && grid[old(u.gy), old(u.gx)] == null
      ensures forall j, i :: OnGrid(i, j) && (i, j) != (x, y) && (i, j) != (old(u.gx), old(u.gy)) ==>
        grid[j, i] == old(grid[j, i])
    {
      grid[u.gy, u.gx] := null;
      u.gx := x;
      u.gy := y;
      grid[y, x] := u;
    }

    /** Clears the fog on the grid cells within one step of (cx, cy), row by row. */
    method Reveal(cx: int, cy: int)
      requires fog.Length0 == Size && fog.Length1 == Size
      modifies fog
      ensures forall y, x :: OnGrid(x, y) ==> (fog[y, x] <==> old(fog[y, x]) && !Near(cx, cy, x, y))
    {
      for dy := -1 to 2
        invariant forall y, x :: OnGrid(x, y) ==>
          (fog[y, x] <==> old(fog[y, x]) && !(Near(cx, cy, x, y) && y - cy < dy))
      {
        for dx := -1 to 2
          invariant forall y, x :: OnGrid(x, y) ==>
            (fog[y, x] <==> old(fog[y, x]) && !(Near(cx, cy, x, y) && (y - cy < dy || (y - cy == dy && x - cx < dx))))
        {
          var nx, ny := cx + dx, cy + dy;
          if 0 <= nx < Size && 0 <= ny < Size {
            fog[ny, nx] := false;
          }
        }
      }
    }

    /**
     * Rebuilds the fog for `team` from a fully hidden grid: every cell within
     * one step of one of its units is revealed.
     */
    method UpdateFog(team: Team)
      requires Valid()
      modifies this
      ensures Valid()
      ensures grid == old(grid) && pieces == old(pieces) && fresh(fog)
      ensures forall y, x :: OnGrid(x, y) ==> (fog[y, x] <==> Hidden(x, y, team))
    {
      fog := new bool[Size, Size]((y, x) => true);
      for k := 0 to |pieces|
        invariant fresh(fog) && fog.Length0 == Size && fog.Length1 == Size
        invariant pieces == old(pieces) && grid == old(grid)
        invariant forall y, x :: OnGrid(x, y) ==> (fog[y, x] <==> HiddenAmong(k, x, y, team))
      {
        var p := pieces[k];
        HiddenAmongStep(k, team);
        if p.team == team {
          Reveal(p.gx, p.gy);
        }
      }
    }

    /** No unit of `team` among the first `k` of the collection is within one step of (x, y). */
    ghost predicate HiddenAmong(k: int, x: int, y: int, team: Team)
      requires 0 <= k <= |pieces|
      reads this, pieces
    {
      forall i :: 0 <= i < k && pieces[i].team == team ==> !Near(pieces[i].gx, pieces[i].gy, x, y)
    }

    /** Taking one more unit into account hides a cell only if that unit, when of `team`, is not near it. */
    lemma HiddenAmongStep(k: int, team: Team)
      requires 0 <= k < |pieces|
      ensures forall y, x :: HiddenAmong(k + 1, x, y, team) <==>
        HiddenAmong(k, x, y, team) && (pieces[k].team == team ==> !Near(pieces[k].gx, pieces[k].gy, x, y))
    {
    }

    /** Recomputes the fog for `team` and tells whether (x, y) is revealed. */
    method IsVisible(x: int, y: int, team: Team) returns (v: bool)
      requires Valid() && OnGrid(x, y)
      modifies this
      ensures Valid()
      ensures grid == old(grid) && pieces == old(pieces) && fresh(fog)
      ensures forall y', x' :: OnGrid(x', y') ==> (fog[y', x'] <==> Hidden(x', y', team))
      ensures v <==> exists i :: 0 <= i < |pieces| && pieces[i].team == team && Near(pieces[i].gx, pieces[i].gy, x, y)
    {
      UpdateFog(team);
      v := !fog[y, x];
    }
  }
}
