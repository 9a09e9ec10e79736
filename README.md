# Ajedrez — a verified model of the board logic

Ajedrez is a Python/pygame chess game with two modes. This project models the
turn-based logic behind both modes in Dafny and proves what that logic
promises.

* **Classical chess** (`ajedrez_clasico/`):
  * candidate-move generation per piece type;
  * the board's move transaction: try the move, roll it back if it leaves the
    mover's king attacked, otherwise pass the turn and set the status;
  * check and checkmate found by exhaustive simulation;
  * the opening layout.
* **Notation** (`reglas.py`):
  * the Forsyth–Edwards Notation writer (section 16.1 of the PGN Standard);
  * the long-algebraic (`e2e4`) move applier.
* **Shadows mode** (`ajedrez_sombras/`):
  * an 8x8 grid kept in step with the collection of units;
  * combat: kill and take the cell, wound and stay, or a plain move;
  * fog of war at Chebyshev radius 1;
  * the boss AI's priority chain and its shadow summon.

Files:

| file | module | contents |
|---|---|---|
| `wrappers.dfy` | `Wrappers` | `Option` |
| `pieza.dfy` | `ClassicPiece` | squares, pieces and their move generators: specification functions, the imperative generators proved equal to them, lemmas on their meaning |
| `tablero.dfy` | `ClassicBoard` | check, mate, the move transaction and the opening layout; class `Board` with the fields `squares`, `turn`, `status` and `history` |
| `reglas.dfy` | `Notation` | the FEN writer with its read-back lemmas, and long-algebraic decoding and application |
| `tablero_sombras.dfy` | `Shadows` | classes `Unit` and `Board` (`grid` and `fog` as `array2`, `pieces` as a sequence) |
| `ia_sombras.dfy` | `ShadowsAI` | class `BossAI`: the move choice and the summon |

How the model represents the source:

* **Classical pieces are values.** A piece is a datatype value in the map
  `Squares = map<Pos, Option<Piece>>`. Python mutates the piece object's
  `posicion` and `movimientos` fields. The same object is only ever reachable
  from one square, so replacing the map entry has the same effect.
* **The map has all 64 squares as keys.** The Python dictionary starts with the
  32 occupied squares only, and a move or a rollback later writes `None` under
  empty squares. Every lookup in the core goes through `.get`, through
  `in`-then-truthiness, or through truth tests on the looked-up value. Through
  those, a missing key and a key holding `None` look the same, so the model
  keeps all 64 keys (`At` reads a missing key as empty).
* **Scan order.** The Python loops visit the dictionary in insertion order. The
  model visits the squares in a fixed order (`AllSquares`, x-major). The order
  is observable only when one colour has two kings: check looks at the first
  king the scan finds.
* **Searches are recursive.** Check and mate are specified by recursive
  searches (`KingSearch`, `AttackerSearch`, `Trapped`, `AllTrapped`). Lemmas
  prove their quantified meaning (`InCheckMeaning`, `MatedMeaning`). The loops
  of `IsInCheck`, `TryPiece` and `IsCheckmate` are proved against them.
* **Randomness and unseen code are inputs.** Three things become parameters:
  * the shadows units' own move rules (in `pieza_sombras.py`, not part of this
    model);
  * the outcome of a blow (`recibir_damage`), as `dies`;
  * the random draws, as `roll` and `pick`.

## Model

| member | source | states |
|---|---|---|
| ClassicPiece.ComputePawnMoves | ajedrez_clasico/pieza.py:37-63 | the pawn loop returns exactly `PawnMoves`: the forward step, the double step, then the two diagonal captures, in the source's order |
| ClassicPiece.ComputePawnCaptures | ajedrez_clasico/pieza.py:57-61 | the diagonal loop returns exactly `PawnCaptures`: the left then the right diagonal square ahead, each when it is on the board and holds an enemy |
| ClassicPiece.ComputeSlides | ajedrez_clasico/pieza.py:65-117 | the ray loops with `break` return exactly `Slides`, the concatenated rays of the given directions |
| ClassicPiece.ComputeRay | ajedrez_clasico/pieza.py:73-88 | one direction's walk, stopping at the edge, before an own piece or after a captured enemy, returns exactly `Ray` |
| ClassicPiece.ComputeJumps | ajedrez_clasico/pieza.py:119-145 | the knight loop with `continue` returns exactly `Jumps` over the eight L offsets |
| ClassicPiece.ComputeKingMoves | ajedrez_clasico/pieza.py:151-176 | the king's nested loops return exactly `KingSweep`, the neighbours in column-major order |
| ClassicPiece.ComputeKingColumn | ajedrez_clasico/pieza.py:158-174 | the inner loop over dy for one dx returns exactly `KingColumn`: the enterable on-board neighbours of that column, skipping the king's own square |
| ClassicPiece.CandidateMoves | ajedrez_clasico/pieza.py:21-35 | the dispatch returns `Moves`: the queen's list is the rook list followed by the bishop list, and an unrecognised type gets the empty list |
| ClassicPiece.RayShape | ajedrez_clasico/pieza.py:73-88 | a ray is the contiguous run of steps from the piece, all on the board and enterable; every square before the last is empty; every reachable square up to the first blocker is included; nothing beyond the blocker is included |
| ClassicPiece.RaySound | ajedrez_clasico/pieza.py:73-88 | every square of a ray lies on the line from the piece, at least one step away |
| ClassicPiece.SlidesSound | ajedrez_clasico/pieza.py:100-115 | every sliding destination is on the board, enterable, and on one of the given lines, not the piece's own square |
| ClassicPiece.JumpsMembers | ajedrez_clasico/pieza.py:125-143 | a square is a jump destination iff it is one of the offsets from the piece, on the board, and empty or an enemy |
| ClassicPiece.KingSweepMembers | ajedrez_clasico/pieza.py:157-174 | the sweep contains exactly the on-board, enterable squares at Chebyshev distance one, never the king's own square |
| ClassicPiece.PawnRules | ajedrez_clasico/pieza.py:43-61 | one step iff that square is on the board and empty; two steps iff the pawn never moved and both squares are empty; a diagonal iff it holds an enemy; nothing else |
| ClassicPiece.MovesSound | ajedrez_clasico/pieza.py:21-176 | no generator yields the mover's own square or a square of its own colour; from an on-board piece every destination is on the board |
| ClassicPiece.KnightRule | ajedrez_clasico/pieza.py:119-145 | a knight's candidates are exactly the on-board, enterable squares one L away |
| ClassicPiece.KingRule | ajedrez_clasico/pieza.py:151-176 | a king's candidates are exactly the on-board, enterable neighbours |
| ClassicBoard.Opponent | ajedrez_clasico/tablero.py:54 | the opponent's colour differs from the mover's |
| ClassicBoard.Board.constructor | ajedrez_clasico/tablero.py:13-20 | a new board holds the opening layout, white to move, status playing, empty history |
| ClassicBoard.InitialBoard | ajedrez_clasico/tablero.py:107-136 | the opening map is well formed and each square holds its `OpeningCell` occupant; each piece's position equals its square |
| ClassicBoard.OpeningKings | ajedrez_clasico/tablero.py:113-130 | in the opening each colour has exactly one king, on (4,0) for white and (4,7) for black, and the king search finds it |
| ClassicBoard.OpeningMirror | ajedrez_clasico/tablero.py:113-130 | the black back rank repeats the white back rank's types; exactly rows 0, 1, 6 and 7 are occupied; white holds rows 0–1 and black rows 6–7; the pawns stand on rows 1 and 6 |
| ClassicBoard.KingSearchSound | ajedrez_clasico/tablero.py:72-76 | the king search finds a square iff a king of that colour is on the board, and it finds the first one in scan order |
| ClassicBoard.AttackerSearchExists | ajedrez_clasico/tablero.py:79-84 | the attacker search succeeds iff some enemy piece's candidates contain the king's square |
| ClassicBoard.InCheckMeaning | ajedrez_clasico/tablero.py:70-84 | no king means no check; otherwise check iff some enemy piece on the board has the king's square among its candidates |
| ClassicBoard.Board.IsInCheck | ajedrez_clasico/tablero.py:70-84 | the two loops return exactly `InCheck` |
| ClassicBoard.NoEscapeForOthers | ajedrez_clasico/tablero.py:90-91 | a square without a piece of the colour in question offers that colour no escape |
| ClassicBoard.Board.TryPiece | ajedrez_clasico/tablero.py:91-104 | trying every candidate of one piece, each tried on the board and undone, leaves the board unchanged and reports whether none lifts the check |
| ClassicBoard.TrappedAll | ajedrez_clasico/tablero.py:93-104 | a piece is trapped iff none of its candidate moves, simulated, leaves its king out of check |
| ClassicBoard.AllTrappedAll | ajedrez_clasico/tablero.py:90-105 | all pieces are trapped iff each remaining square's piece is trapped |
| ClassicBoard.MatedMeaning | ajedrez_clasico/tablero.py:86-105 | mate iff in check and no simulated candidate move of any piece of that colour lifts the check |
| ClassicBoard.Board.IsCheckmate | ajedrez_clasico/tablero.py:86-105 | the simulation loop restores the board and returns exactly `Mated` |
| ClassicBoard.Undo | ajedrez_clasico/tablero.py:44-50 | putting the mover and the captured occupant back restores the map exactly |
| ClassicBoard.AppliedWellFormed | ajedrez_clasico/tablero.py:37-42 | moving a piece to an on-board square keeps the map well formed (positions agree with squares) |
| ClassicBoard.LegalMoveShape | ajedrez_clasico/tablero.py:26-55 | an accepted move goes from an on-board square to a different on-board square that is empty or enemy; the piece arrives with its position set and one more move; the origin is empty; every other square is unchanged; the mover is not in check |
| ClassicBoard.Board.MakeMove | ajedrez_clasico/tablero.py:22-65 | accepted iff a piece of the side to move, a candidate destination, and no self-check; a refused move leaves every field unchanged; an accepted one applies the move, appends (origin, destination) to the history, passes the turn, and sets the status for the new side to move |
| ClassicBoard.Board.TryMove | ajedrez_clasico/tablero.py:37-50 | the move is applied, and rolled back exactly iff it leaves the mover's king in check; turn, status and history are untouched |
| ClassicBoard.Board.UpdateStatus | ajedrez_clasico/tablero.py:57-63 | the status becomes checkmate iff in check and mated, check iff in check and not mated, playing otherwise; nothing else changes |
| Notation.BoardToFen | reglas.py:23-58 | the nested loops produce exactly `Fen`: the eight rank texts from row 7 down to row 0 joined by '/', the side to move, and " - - 0 1" |
| Notation.ComputeRank | reglas.py:29-54 | the column loop with its empty-square counter returns exactly the rank text `RankString` |
| Notation.LetterRoundTrip | reglas.py:39-51 | every piece's letter reads back to its colour and type (upper case for white, lower case for black; an unknown type is written as a pawn) and is neither a digit nor '/' |
| Notation.EncodeRunExpands | reglas.py:29-53 | expanding a rank text's digits into empty squares gives back the pending run and then every cell in order |
| Notation.EncodeRunShape | reglas.py:29-53 | a rank text holds only run lengths 1..8 and piece letters, never two adjacent digits, and is never empty |
| Notation.RankRoundTrip | reglas.py:28-54 | every rank text accounts for exactly eight squares, which read back as that row's occupants |
| Notation.SplitJoin | reglas.py:55 | splitting the '/'-joined ranks at '/' gives the ranks back |
| Notation.FenRoundTrip | reglas.py:27-58 | a record ends with the side to move and " - - 0 1", and its placement field splits into eight ranks, rank i reading back as row 7-i |
| Notation.FenTurn | reglas.py:56-58 | a record ends with " w - - 0 1" iff white is to move and with " b - - 0 1" iff black is |
| Notation.SquareOf | reglas.py:65-70 | a square is produced iff the rank character is a digit, with y from -1 to 8; it is on the board iff the file is 'a'..'h' and the rank '1'..'8' |
| Notation.SquareNameRoundTrip | reglas.py:65-70 | naming any on-board square by its file letter and rank digit decodes back to that square |
| Notation.ParseLan | reglas.py:62-72 | a text is too short iff it has fewer than four characters; a rank error iff either rank character is not a digit; otherwise the origin and destination are the squares the first and second character pairs name |
| Notation.ParseLanPrefix | reglas.py:62-64 | characters after the fourth are never read |
| Notation.LanRoundTrip | reglas.py:62-72 | the four-character text of any on-board move decodes to that move |
| Notation.ApplyLan | reglas.py:60-80 | a text shorter than four characters is refused; a non-digit rank fails; an empty origin is refused with nothing changed; otherwise the piece moves to the destination with its position set and one more move, and the origin becomes empty |
| Notation.SameSquareRemoves | reglas.py:76-77 | applying a move whose origin and destination coincide removes the piece from the map |
| Shadows.TeamOf | ajedrez_sombras/tablero_sombras.py:153-155 | the selection holds exactly the units of that team from the collection, none twice |
| Shadows.TeamOfInOrder | ajedrez_sombras/tablero_sombras.py:153-155 | any two selected units stand in the collection in the order of the selection, as the list comprehension keeps collection order |
| Shadows.FindBoss | ajedrez_sombras/ia_sombras.py:69-74 | none iff no unit is an enemy boss; otherwise the first enemy boss in collection order |
| Shadows.FindPlayerKing | ajedrez_sombras/ia_sombras.py:76-81 | none iff no unit is a player king; otherwise the first player king in collection order |
| Shadows.Remove | ajedrez_sombras/tablero_sombras.py:72 | removal keeps every other unit, drops the target, and keeps the collection free of duplicates |
| Shadows.SetupEntries | ajedrez_sombras/tablero_sombras.py:21-45 | the layout has 32 entries: player on rows 7 and 6, enemy on rows 0 and 1, pawns on the second rows, a king on each side, and only the enemy king is the boss |
| Shadows.SetupCells | ajedrez_sombras/tablero_sombras.py:21-45 | the 32 layout cells are all on the grid and pairwise different, so every unit of the layout is placed |
| Shadows.OpeningLeaders | ajedrez_sombras/tablero_sombras.py:21-45 | units laid out as the opening have exactly one boss, entry 20, the enemy king on (4,0), and entry 4 is the player's king |
| Shadows.Board.constructor | ajedrez_sombras/tablero_sombras.py:14-19 | a new board is consistent, holds the 32 units of the layout, has exactly one boss, the enemy king on (4,0), has neither side dead, and shows the player's fog |
| Shadows.Board.Configure | ajedrez_sombras/tablero_sombras.py:21-45 | adding the layout to an empty board places all 32 units where the layout says |
| Shadows.Board.AddPiece | ajedrez_sombras/tablero_sombras.py:47-53 | a unit on an empty cell is placed there and appended to the collection; an occupied cell leaves grid and collection unchanged |
| Shadows.Board.PieceAt | ajedrez_sombras/tablero_sombras.py:55-59 | a unit found is on the grid, in the collection and at (x, y); none found means no unit stands at (x, y), in particular off the grid |
| Shadows.Board.MovePiece | ajedrez_sombras/tablero_sombras.py:61-96 | succeeds iff the cell is empty or holds an enemy; a surviving enemy or an own-team unit leaves everything unchanged and the hook does not run; when `u` changes cell (plain move, or the enemy there is killed and leaves the collection), `u` ends on (x, y), and afterwards every other cell is as before or holds a unit the after-move hook placed on a formerly empty cell, the collection is the moved one followed by hook units only, and every hook unit's cell is occupied; the grid stays consistent |
| Shadows.Board.Relocate | ajedrez_sombras/tablero_sombras.py:61-96 | the combat and relocation before the hook: succeeds iff the cell is empty or holds an enemy; a killed enemy leaves the collection and the attacker takes its cell, emptying its old one; a surviving enemy or an own-team unit leaves everything unchanged; an empty cell is a plain move; every other cell is unchanged |
| Shadows.Board.Shift | ajedrez_sombras/tablero_sombras.py:75-78 | the relocation shared by a kill and a plain move: `u` leaves its cell, which becomes empty, and stands on the empty cell (x, y); every other cell is unchanged and the grid stays consistent |
| Shadows.Board.PlaceMinions | ajedrez_sombras/tablero_sombras.py:80 | the board effect of the after-move hook, called here and at line 93: the collection only grows, by the hook's units; each cell is unchanged or receives a hook unit where it was empty; every hook unit's cell ends up occupied; the grid stays consistent |
| Shadows.Board.UpdateFog | ajedrez_sombras/tablero_sombras.py:98-109 | the fog is rebuilt from scratch: a cell is hidden iff no unit of the team is within one step of it |
| Shadows.Board.Reveal | ajedrez_sombras/tablero_sombras.py:104-109 | the 3x3 loop clears exactly the on-grid cells within one step of the unit and leaves every other cell as it was |
| Shadows.Board.IsVisible | ajedrez_sombras/tablero_sombras.py:111-114 | recomputes the fog for the team and answers true iff some unit of the team is within one step |
| Shadows.Board.PiecesOf | ajedrez_sombras/tablero_sombras.py:153-155 | exactly the units of the team from the collection, in collection order: any two of them stand in the collection in the order they are listed |
| Shadows.Board.BossDead | ajedrez_sombras/tablero_sombras.py:157-162 | true iff no unit is an enemy boss |
| Shadows.Board.PlayerDead | ajedrez_sombras/tablero_sombras.py:164-169 | true iff no unit is a player king |
| ShadowsAI.Manhattan | ajedrez_sombras/ia_sombras.py:83-86 | the distance is never negative and is zero iff the two cells coincide |
| ShadowsAI.ManhattanSymmetric | ajedrez_sombras/ia_sombras.py:83-86 | the distance does not depend on the order of its arguments |
| ShadowsAI.ClosestFirst | ajedrez_sombras/ia_sombras.py:33-38 | the head of the stable sort by distance: a candidate at minimum distance, with every earlier candidate strictly farther |
| ShadowsAI.OffsetOf | ajedrez_sombras/ia_sombras.py:55 | every neighbour of a cell is reached by one of the eight offsets |
| ShadowsAI.BossAI.constructor | ajedrez_sombras/ia_sombras.py:11-13 | the AI keeps the board and starts its summon counter at zero |
| ShadowsAI.BossAI.CalculateMove | ajedrez_sombras/ia_sombras.py:15-47 | none iff no enemy has a candidate; otherwise an enemy and one of its candidates; the first attack on a player unit (enemies, then moves, in order) wins; failing that, the first enemy with candidates goes to the one closest to the player's king if there is one, else to the one `pick` selects |
| ShadowsAI.BossAI.FirstAttack | ajedrez_sombras/ia_sombras.py:19-25 | finds the first (enemy, move) pair, enemies then moves in order, whose target cell holds a player unit; not found iff no pair does |
| ShadowsAI.BossAI.FirstTarget | ajedrez_sombras/ia_sombras.py:21-25 | finds the first move of one enemy whose target holds a player unit; not found iff none does |
| ShadowsAI.BossAI.FirstWithMoves | ajedrez_sombras/ia_sombras.py:29-45 | finds the first enemy whose candidate list is not empty; not found iff every list is empty |
| ShadowsAI.BossAI.FreeNeighbours | ajedrez_sombras/ia_sombras.py:54-59 | a cell is listed iff it is a neighbour of the boss, on the grid and empty |
| ShadowsAI.BossAI.InvokeShadow | ajedrez_sombras/ia_sombras.py:49-67 | summons iff roll is below the double 0.3, a boss exists and a free neighbour exists; then exactly one new enemy pawn, not a boss, is appended on a formerly empty neighbour and nothing else on the grid changes; otherwise the board is unchanged |

## Left out

- `ui.py`: the pygame window, event loop, drawing, sound and timers are outside the model.
- The engine wrappers in `reglas.py` are outside the model: `MotorUCI`, `Reglas`, `_ruta_motor_por_defecto` and `sugerir_movimiento` drive subprocesses and python-chess.
- `Reglas.es_legal` maps y to the rank index `7 - y` (reglas.py:129-130). This disagrees with the `rank = y + 1` convention of the FEN writer and the move decoder. The model does not include `es_legal`, so it neither reproduces nor resolves the disagreement.
- Image loading (`gestor_recursos`, `imagen`) is outside the model; it has no effect on the logic.
- Shadows rendering is outside the model: `TableroSombras.dibujar` and `actualizar_posicion_pixel`.
- Shadows.Board.MovePiece: the after-move hook `post_move` lives in `pieza_sombras.py`, which is not part of this model. It is taken as the list of units it places on the board through `AddPiece`, as a hook that spawns minions does. A hook that moves, damages or removes units, or touches the fog, is not modelled, and MovePiece's frame assumes it does none of these.
- The sprite `Group` becomes an ordered sequence. Its iteration order is taken to be insertion order.
- HP and damage are not modelled. `recibir_damage` becomes the input `dies`, the outcome of the blow.
- The shadows units' move rules (`obtener_movimientos_validos` in `pieza_sombras.py`) are not modelled.
  - `CalculateMove` takes each enemy unit's candidate list as an input.
  - The source calls the generator again in each priority. The model assumes every call returns the same list.
- ShadowsAI.BossAI.CalculateMove: priorities 2 and 3 each stop at the first enemy with candidates. With fixed candidate lists that is the same enemy, so the model runs that search once and then picks the closest move or the drawn one.
- `pieza_sombras.py` is not part of this model, so three facts about its unit classes are assumed. `PiezaSombraRey` carries the type tag "REY", and the other unit classes carry other tags. The non-king classes are built without an `es_boss` argument, and their `es_boss` is taken to be False. The opening layout (`Shadows.Setup`) and the summoned pawn of `ShadowsAI.BossAI.InvokeShadow` rest on the last of these.
- Randomness becomes input. `random.random()` is the input `roll`, a real number compared with the exact value of the double 0.3 (5404319552844595 / 2^54). `random.choice` picks the element at `pick` modulo the list's length.
- The console messages (`print`) are outside the model.
- ClassicBoard.Board.MakeMove: the `try/except` around the move is not modelled.
  - The model's operations cannot raise.
  - In the source, `esta_en_jaque_mate` writes into the dictionary while iterating over it. When it writes a key that was absent, Python raises on the next iteration. The handler then returns False after the history and the turn were already updated.
  - With 64 keys from the start this cannot happen, and the model does not reproduce it.
- The first loop of `inicializar_tablero` (ajedrez_clasico/tablero.py:109-111) places pawns without a position. The later loop overwrites every one of them, so the model starts from the final layout.
- Notation.SquareOf: Python's `int()` also accepts non-ASCII decimal digits; the model accepts only '0'..'9'. Any other rank character gives the outcome `RankNotNumber`, which stands for the `ValueError` the source raises.
- Notation.ApplyLan: the source works on a bare dictionary. The model applies the move to a board's `squares` field and leaves the board's other fields alone. A decoded destination off the board becomes a new key, as in the source. The 64-key invariant of the move logic then no longer holds, and the model does not chain `ApplyLan` with `MakeMove` after such a move.
- ClassicBoard.Board.MakeMove, TryPiece, IsCheckmate, UpdateStatus: these require the board invariant: exactly the 64 squares as keys, and positions agreeing with squares. Every board built by the constructor and changed only by `MakeMove` keeps it.
- Shadows.Board.AddPiece, MovePiece, Relocate, PlaceMinions, IsVisible: these require an on-grid cell, and MovePiece and PlaceMinions require the hook's units to stand on the grid. Python would wrap a negative index or raise on a large one.
  - The only callers in the modelled files are `configurar_tablero` and `invocar_sombra`, and both pass on-grid cells to `agregar_pieza`.
  - No caller of `mover_pieza` or `es_visible` is part of the model, and the hook's units come from `pieza_sombras.py`. For MovePiece, Relocate, PlaceMinions and IsVisible the on-grid requires is therefore an assumption about callers outside the model.
  - `MovePiece` also requires that the mover stands on the board.
- `turno_invocacion` is set to zero and never used; the model keeps it as a field with no further role.
