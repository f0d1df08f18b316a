/**
 * The hexagonal game grid of battlesheep/engine/grid.py: a square array of
 * (occupant, units) cells, stored by offset coordinate and queried in cube
 * coordinates, with the slide rule that governs every move.
 */
module HexGrid {
  import opened Coords
  import opened Results

  /** Occupant code of an empty cell. */
  const EMPTY: int := 0
  /** Occupant code of a hole; any code N > 0 is player N. */
  const HOLE: int := -1

  /** One cell of the storage array: who is there, and how many units. */
  datatype Cell = Cell(occupant: int, units: int)

  /** A cell that holds nothing of a kind the rules allow. */
  predicate CellOk(c: Cell) {
    c.occupant >= HOLE && (c.occupant <= EMPTY ==> c.units == 0)
  }

  /** The assertion the grid raises when a caller breaks a rule of the game. */
  datatype GridError = PreconditionViolated

  /** The cube position reached after k steps from c in direction d. */
  function Walk(c: Cube, d: Direction, k: nat): (w: Cube)
    ensures c.ZeroSum() ==> w.ZeroSum()
    decreases k
  {
    if k == 0 then c else Walk(c.Plus(Delta(d)), d, k - 1)
  }

  /** The cube component that grows by one with every step in direction d. */
  function Heading(d: Direction, c: Cube): int {
    match d
    case UL => c.s
    case UR => c.q
    case L  => c.s
    case R  => c.q
    case DL => c.r
    case DR => c.r
  }

  /** Every step makes progress, so a walk never comes back to where it began. */
  lemma {:induction false} WalkProgress(c: Cube, d: Direction, k: nat)
    ensures Heading(d, Walk(c, d, k)) == Heading(d, c) + k
    ensures k > 0 ==> Walk(c, d, k) != c
    decreases k
  {
    if k > 0 {
      WalkProgress(c.Plus(Delta(d)), d, k - 1);
    }
  }

  /** The last step of a walk is one step from the walk before it. */
  lemma {:induction false} WalkSnoc(c: Cube, d: Direction, k: nat)
    ensures Walk(c, d, k + 1) == Walk(c, d, k).Plus(Delta(d))
    decreases k
  {
    if k > 0 {
      WalkSnoc(c.Plus(Delta(d)), d, k - 1);
    }
  }

  /** What one of the player-level queries measures, summed over the grid. */
  datatype Measure =
    | CellsOf(player: int)   // `get_score`: the cells whose occupant code is player
    | Units                  // the units on the board
    | Codes                  // the sum of the whole storage array, both layers

  function Weight(m: Measure, c: Cell): int {
    match m
    case CellsOf(p) => if c.occupant == p then 1 else 0
    case Units => c.units
    case Codes => c.occupant + c.units
  }

  function RowTotal(row: seq<Cell>, m: Measure): int
    decreases |row|
  {
    if row == [] then 0 else RowTotal(row[..|row| - 1], m) + Weight(m, row[|row| - 1])
  }

  function RowsTotal(rows: seq<seq<Cell>>, m: Measure): int
    decreases |rows|
  {
    if rows == [] then 0 else RowsTotal(rows[..|rows| - 1], m) + RowTotal(rows[|rows| - 1], m)
  }

  /** The storage of a board of the given size. */
  datatype Grid = Grid(size: nat, cells: seq<seq<Cell>>) {

    /** The storage is `size` x `size`. */
    ghost predicate Valid() {
      |cells| == size && forall i :: 0 <= i < size ==> |cells[i]| == size
    }

    predicate InBounds(o: Offset) {
      InBoard(size, o)
    }

    function At(o: Offset): Cell
      requires Valid() && InBounds(o)
    {
      cells[o.x][o.y]
    }

    /** Every cell is empty, a hole, or a player's, and only a player's cell holds units. */
    ghost predicate Consistent() {
      Valid() && forall o :: InBounds(o) ==> CellOk(At(o))
    }

    /** The grid with one cell replaced. */
    function With(o: Offset, v: Cell): (g: Grid)
      requires Valid() && InBounds(o)
      ensures g.Valid() && g.size == size
      ensures g.At(o) == v
      ensures forall o' :: InBounds(o') && o' != o ==> g.At(o') == At(o')
    {
      this.(cells := cells[o.x := cells[o.x][o.y := v]])
    }

    /** `_out_of_bounds`: a hexagon off the board can never be slid onto. */
    predicate OutOfBounds(c: Cube): (b: bool)
      requires c.ZeroSum()
      ensures Valid() && b ==> !Open(c)
    {
      var o := ToOffset(size, c);
      o.x < 0 || o.x >= size || o.y < 0 || o.y >= size
    }

    /** `__getitem__`: the cell of an on-board hexagon; well formed when the storage is. */
    function CellAt(c: Cube): (v: Cell)
      requires Valid() && c.ZeroSum() && !OutOfBounds(c)
      ensures Consistent() ==> CellOk(v)
    {
      At(ToOffset(size, c))
    }

    /** `is_empty`: an on-board hexagon is empty exactly when a stack may slide onto it. */
    predicate IsEmpty(c: Cube): (b: bool)
      requires Valid() && c.ZeroSum() && !OutOfBounds(c)
      ensures b <==> Open(c)
    {
      CellAt(c).occupant == EMPTY
    }

    /** `is_hole`: a hole is never empty, so it stops every slide. */
    predicate IsHole(c: Cube): (b: bool)
      requires Valid() && c.ZeroSum() && !OutOfBounds(c)
      ensures b ==> !IsEmpty(c) && !Open(c)
    {
      CellAt(c).occupant == HOLE
    }

    /**
     * `is_occupied`: on consistent storage every on-board hexagon is exactly
     * one of empty, a hole, or occupied.
     */
    predicate IsOccupied(c: Cube): (b: bool)
      requires Valid() && c.ZeroSum() && !OutOfBounds(c)
      ensures b ==> !IsEmpty(c) && !IsHole(c)
      ensures Consistent() ==> (b <==> !IsEmpty(c) && !IsHole(c))
    {
      CellAt(c).occupant > EMPTY
    }

    /**
     * `is_occupied_by_player`: for a player id the hexagon is then occupied;
     * asked with the empty code, it is `is_empty`.
     */
    predicate IsOccupiedByPlayer(c: Cube, player: int): (b: bool)
      requires Valid() && c.ZeroSum() && !OutOfBounds(c)
      ensures player >= 1 && b ==> IsOccupied(c)
      ensures player == EMPTY ==> (b <==> IsEmpty(c))
    {
      CellAt(c).occupant == player
    }

    /** `player_at`: asserts that the cell is occupied. */
    function PlayerAt(c: Cube): (p: int)
      requires Valid() && c.ZeroSum() && !OutOfBounds(c) && IsOccupied(c)
      ensures p >= 1 && IsOccupiedByPlayer(c, p)
    {
      CellAt(c).occupant
    }

    /** `units_at`: asserts that the cell is occupied. */
    function UnitsAt(c: Cube): int
      requires Valid() && c.ZeroSum() && !OutOfBounds(c) && IsOccupied(c)
    {
      CellAt(c).units
    }

    /** A hexagon a stack may slide onto: on the board and empty. */
    predicate Open(c: Cube)
      requires Valid()
    {
      && c.ZeroSum()
      && var o := ToOffset(size, c);
      && 0 <= o.x < size && 0 <= o.y < size
      && cells[o.x][o.y].occupant == EMPTY
    }

    /** Open is `not _out_of_bounds` followed by `is_empty`. */
    lemma OpenIsInBoundsAndEmpty(c: Cube)
      requires Valid() && c.ZeroSum()
      ensures Open(c) <==> !OutOfBounds(c) && IsEmpty(c)
    {
    }

    /**
     * `get_next_moveable_cell`: step from c in direction d while the next
     * hexagon is on the board and empty; the result is the last hexagon
     * reached, or c itself when the first step is blocked.
     */
    function Slide(c: Cube, d: Direction): (e: Cube)
      requires Valid() && c.ZeroSum()
      ensures e.ZeroSum()
      decreases EdgeDistance(size, c, d)
    {
      var next := c.Plus(Delta(d));
      // The slide ends before a step off the board or onto a cell that is not empty.
      if !Open(next) then c
      else
        StepNearsEdge(size, c, d);
        Slide(next, d)
    }

    /** The k hexagons that follow c in direction d are all open. */
    ghost predicate OpenRun(c: Cube, d: Direction, k: nat)
      requires Valid()
      decreases k
    {
      k == 0 || (Open(c.Plus(Delta(d))) && OpenRun(c.Plus(Delta(d)), d, k - 1))
    }

    /**
     * The number of steps a slide takes: every step lands on an open
     * hexagon, and the step after the last one is blocked.
     */
    ghost function SlideSteps(c: Cube, d: Direction): (k: nat)
      requires Valid() && c.ZeroSum()
      ensures Slide(c, d) == Walk(c, d, k)
      ensures OpenRun(c, d, k)
      ensures !Open(Walk(c, d, k + 1))
      decreases EdgeDistance(size, c, d)
    {
      var next := c.Plus(Delta(d));
      if !Open(next) then 0
      else
        StepNearsEdge(size, c, d);
        var k := SlideSteps(next, d);
        assert Walk(c, d, k + 1) == Walk(next, d, k);
        assert Walk(c, d, k + 2) == Walk(next, d, k + 1);
        k + 1
    }

    /** Some direction lets a stack on c slide away. */
    ghost predicate HasMove(c: Cube)
      requires Valid() && c.ZeroSum()
    {
      exists d :: Slide(c, d) != c
    }

    /** A cell of the player's that `get_player_moveable_positions` keeps. */
    ghost predicate Moveable(player: int, o: Offset)
      requires Valid()
    {
      InBounds(o) && At(o).occupant == player && At(o).units > 1 && HasMove(ToCube(size, o))
    }
  }

  /**
   * A hexagon is on the board exactly when it is the hexagon of a cell of
   * the storage, and that cell is the only one with that hexagon.
   */
  lemma OnBoardIffCell(g: Grid, c: Cube)
    requires c.ZeroSum()
    ensures !g.OutOfBounds(c) <==> exists o :: g.InBounds(o) && ToCube(g.size, o) == c
    ensures forall o :: ToCube(g.size, o) == c ==> o == ToOffset(g.size, c)
  {
    OffsetOfCube(g.size, c);
    var o := ToOffset(g.size, c);
    CentredCubeRoundTrip(g.size, c);
    assert ToCube(g.size, o) == c;
    assert !g.OutOfBounds(c) <==> g.InBounds(o);
  }

  /**
   * The queries addressed by hexagon read the storage cell of its offset:
   * `__getitem__`, `player_at` and `units_at` agree with the stored occupant
   * and units.
   */
  lemma CellAddressing(g: Grid, o: Offset)
    requires g.Valid() && g.InBounds(o)
    ensures var c := ToCube(g.size, o);
            && !g.OutOfBounds(c)
            && g.CellAt(c) == g.At(o)
            && (g.IsOccupied(c) ==> g.PlayerAt(c) == g.At(o).occupant && g.UnitsAt(c) == g.At(o).units)
  {
    CentredOffsetRoundTrip(g.size, o);
  }

  /**
   * `get_score`: the number of cells whose occupant code is the player's,
   * so between zero and the number of cells.
   */
  function Score(g: Grid, player: int): (s: int)
    requires g.Valid()
    ensures 0 <= s <= g.size * g.size
  {
    RowsCountBound(g.cells, player, g.size);
    RowsTotal(g.cells, CellsOf(player))
  }

  /** A row holds between none and all of its cells for a player. */
  lemma {:induction false} RowCountBound(row: seq<Cell>, player: int)
    ensures 0 <= RowTotal(row, CellsOf(player)) <= |row|
    decreases |row|
  {
    if row != [] {
      RowCountBound(row[..|row| - 1], player);
    }
  }

  /** Rows of n cells each hold between none and all of their cells for a player. */
  lemma {:induction false} RowsCountBound(rows: seq<seq<Cell>>, player: int, n: nat)
    requires forall i :: 0 <= i < |rows| ==> |rows[i]| == n
    ensures 0 <= RowsTotal(rows, CellsOf(player)) <= |rows| * n
    decreases |rows|
  {
    if rows != [] {
      var last := |rows| - 1;
      RowCountBound(rows[last], player);
      RowsCountBound(rows[..last], player, n);
      assert |rows| * n == last * n + n;
    }
  }

  /** The units on the board. */
  function TotalUnits(g: Grid): int {
    RowsTotal(g.cells, Units)
  }

  /** The sum of the whole storage array. */
  function StateSum(g: Grid): int {
    RowsTotal(g.cells, Codes)
  }

  /** A board of the given size with every cell empty. */
  function EmptyGrid(size: nat): (g: Grid)
    ensures g.Valid() && g.size == size
    ensures forall o :: g.InBounds(o) ==> g.At(o) == Cell(EMPTY, 0)
  {
    Grid(size, seq(size, _ => seq(size, _ => Cell(EMPTY, 0))))
  }

  /**
   * `__init__`: an empty board of the given size with a hole at every listed
   * coordinate, written in list order. Duplicate holes are harmless.
   */
  function New(size: nat, holes: seq<Offset>): (g: Grid)
    requires forall i :: 0 <= i < |holes| ==> InBoard(size, holes[i])
    ensures g.Valid() && g.size == size
    ensures forall o :: g.InBounds(o) ==> g.At(o) == if o in holes then Cell(HOLE, 0) else Cell(EMPTY, 0)
    ensures g.Consistent()
    decreases |holes|
  {
    if holes == [] then EmptyGrid(size)
    else
      var prefix := holes[..|holes| - 1];
      assert holes == prefix + [holes[|holes| - 1]];
      New(size, prefix).With(holes[|holes| - 1], Cell(HOLE, 0))
  }

  /**
   * A slide ends on c itself or on an open hexagon further along; the
   * hexagon one step beyond its end is never open; and it leaves c exactly
   * when the first neighbour in its direction is open.
   */
  lemma {:induction false} SlideSpec(g: Grid, c: Cube, d: Direction)
    requires g.Valid() && c.ZeroSum()
    ensures g.Slide(c, d) == c || g.Open(g.Slide(c, d))
    ensures !g.Open(g.Slide(c, d).Plus(Delta(d)))
    ensures g.Slide(c, d) != c <==> g.Open(c.Plus(Delta(d)))
    ensures Heading(d, g.Slide(c, d)) >= Heading(d, c)
    decreases EdgeDistance(g.size, c, d)
  {
    var next := c.Plus(Delta(d));
    if g.Open(next) {
      StepNearsEdge(g.size, c, d);
      SlideSpec(g, next, d);
    }
  }

  /** A slide can leave c exactly when one of c's neighbours is open. */
  lemma HasMoveIffOpenNeighbour(g: Grid, c: Cube)
    requires g.Valid() && c.ZeroSum()
    ensures g.HasMove(c) <==> exists d :: g.Open(c.Plus(Delta(d)))
  {
    forall d: Direction
      ensures g.Slide(c, d) != c <==> g.Open(c.Plus(Delta(d)))
    {
      SlideSpec(g, c, d);
    }
  }

  /**
   * `_available_moves`: neighbours first, for efficiency, then every slide.
   * The short-circuit does not change the answer.
   */
  method AvailableMoves(g: Grid, c: Cube) returns (b: bool)
    requires g.Valid() && c.ZeroSum()
    ensures b <==> g.HasMove(c)
  {
    // First pass: an open neighbour already gives a slide that leaves c.
    for i := 0 to 6
      invariant forall j :: 0 <= j < i ==> !g.Open(c.Plus(Delta(DirectionAt(j))))
    {
      var d := DirectionAt(i);
      var n := c.Plus(Delta(d));
      g.OpenIsInBoundsAndEmpty(n);
      if g.OutOfBounds(n) {
        continue;
      }
      if g.IsEmpty(n) {
        OpenNeighbourGivesMove(g, c, d);
        return true;
      }
    }
    NoOpenNeighbourNoMove(g, c);
    // Second pass over every slide; NoOpenNeighbourNoMove says none leaves c.
    for i := 0 to 6 {
      var e := g.Slide(c, DirectionAt(i));
      if e != c {
        return true;
      }
    }
    return false;
  }

  lemma OpenNeighbourGivesMove(g: Grid, c: Cube, d: Direction)
    requires g.Valid() && c.ZeroSum() && g.Open(c.Plus(Delta(d)))
    ensures g.HasMove(c)
  {
    SlideSpec(g, c, d);
  }

  lemma NoOpenNeighbourNoMove(g: Grid, c: Cube)
    requires g.Valid() && c.ZeroSum()
    requires forall j :: 0 <= j < 6 ==> !g.Open(c.Plus(Delta(DirectionAt(j))))
    ensures !g.HasMove(c)
  {
    forall d: Direction
      ensures g.Slide(c, d) == c
    {
      assert DirectionAt(IndexOf(d)) == d;
      SlideSpec(g, c, d);
    }
  }

  /** Whether `get_player_moveable_positions` keeps the cell at o. */
  method IsMoveable(g: Grid, player: int, o: Offset) returns (b: bool)
    requires g.Valid() && g.InBounds(o)
    ensures b <==> g.Moveable(player, o)
  {
    var cell := g.At(o);
    b := false;
    if cell.occupant == player && cell.units > 1 {
      b := AvailableMoves(g, ToCube(g.size, o));
    }
  }

  /** The moveable cells of row x appended, column by column, to ps. */
  method ScanRow(g: Grid, player: int, x: int, ps: seq<Offset>) returns (ps': seq<Offset>)
    requires g.Valid() && 0 <= x < g.size
    requires forall o :: o in ps ==> o.x < x
    requires forall i, j :: 0 <= i < j < |ps| ==> ps[i] != ps[j]
    ensures forall o :: o in ps' <==> o in ps || (g.Moveable(player, o) && o.x == x)
    ensures forall i, j :: 0 <= i < j < |ps'| ==> ps'[i] != ps'[j]
  {
    ps' := ps;
    for y := 0 to g.size
      invariant forall o :: o in ps' <==> o in ps || (g.Moveable(player, o) && o.x == x && o.y < y)
      invariant forall i, j :: 0 <= i < j < |ps'| ==> ps'[i] != ps'[j]
    {
      var ok := IsMoveable(g, player, Offset(x, y));
      if ok {
        ps' := ps' + [Offset(x, y)];
      }
    }
  }

  /**
   * `get_player_moveable_positions`: the player's cells with more than one
   * unit from which some slide is possible, row by row, each listed once.
   */
  method MoveablePositions(g: Grid, player: int) returns (ps: seq<Offset>)
    requires g.Valid() && player >= 1
    ensures forall o :: o in ps <==> g.Moveable(player, o)
    ensures forall i, j :: 0 <= i < j < |ps| ==> ps[i] != ps[j]
  {
    ps := [];
    for x := 0 to g.size
      invariant forall o :: o in ps <==> g.Moveable(player, o) && o.x < x
      invariant forall i, j :: 0 <= i < j < |ps| ==> ps[i] != ps[j]
    {
      ps := ScanRow(g, player, x, ps);
    }
  }

  /**
   * `initialize_player`: the target hexagon must be empty and the player id
   * positive; the target then holds the player's units and nothing else changes.
   */
  function InitializePlayer(g: Grid, player: int, c: Cube, n: int): (r: Result<Grid, GridError>)
    requires g.Valid() && c.ZeroSum() && !g.OutOfBounds(c)
    ensures r.Ok? <==> g.IsEmpty(c) && player >= 1
    ensures r.Ok? ==> r.value.Valid() && r.value.size == g.size
    ensures r.Ok? ==> r.value.CellAt(c) == Cell(player, n)
    ensures r.Ok? ==> forall o :: g.InBounds(o) && o != ToOffset(g.size, c) ==> r.value.At(o) == g.At(o)
  {
    if !g.IsEmpty(c) then Err(PreconditionViolated)
    else if player < 1 then Err(PreconditionViolated)
    else Ok(g.With(ToOffset(g.size, c), Cell(player, n)))
  }

  /**
   * Where a slide from the cell at o in direction d ends, in offset
   * coordinates (the `next_empty_cell` that board.py calls).
   */
  function NextEmptyCell(g: Grid, o: Offset, d: Direction): (e: Offset)
    requires g.Valid()
    ensures e == o || (g.InBounds(e) && g.At(e).occupant == EMPTY)
  {
    var c := ToCube(g.size, o);
    SlideSpec(g, c, d);
    CentredOffsetRoundTrip(g.size, o);
    CentredCubeRoundTrip(g.size, g.Slide(c, d));
    ToOffset(g.size, g.Slide(c, d))
  }

  /** The slide from o leaves it exactly when the first neighbour in direction d is open. */
  lemma NextEmptyCellLeaves(g: Grid, o: Offset, d: Direction)
    requires g.Valid()
    ensures NextEmptyCell(g, o, d) != o <==> g.Open(ToCube(g.size, o).Plus(Delta(d)))
  {
    var c := ToCube(g.size, o);
    SlideSpec(g, c, d);
    CentredOffsetRoundTrip(g.size, o);
    CentredCubeRoundTrip(g.size, g.Slide(c, d));
  }

  /** The rules `move_player` asserts before it changes anything. */
  ghost predicate MoveAllowed(g: Grid, player: int, o: Offset, n: int, d: Direction)
    requires g.Valid() && g.InBounds(o)
  {
    && player >= 1
    && g.At(o).occupant == player
    && 1 < n < g.At(o).units
    && NextEmptyCell(g, o, d) != o
  }

  /**
   * `move_player`: the source, given in offset coordinates, must be the
   * player's; more than one and fewer than all of its units move; and the
   * slide must reach another, empty hexagon. See MoveEffect for the result.
   */
  function MovePlayer(g: Grid, player: int, o: Offset, n: int, d: Direction): (r: Result<Grid, GridError>)
    requires g.Valid() && g.InBounds(o)
    ensures r.Ok? <==> MoveAllowed(g, player, o, n, d)
    ensures r.Ok? ==> r.value.Valid() && r.value.size == g.size
  {
    var c := ToCube(g.size, o);
    CentredOffsetRoundTrip(g.size, o);
    if player < 1 then Err(PreconditionViolated)
    else if !g.IsOccupied(c) then Err(PreconditionViolated)
    else if g.PlayerAt(c) != player then Err(PreconditionViolated)
    else if !(n > 1 && n < g.UnitsAt(c)) then Err(PreconditionViolated)
    else
      var e := g.Slide(c, d);
      SlideSpec(g, c, d);
      CentredCubeRoundTrip(g.size, e);
      if !(g.IsEmpty(e) && e != c) then Err(PreconditionViolated)
      else
        var src := g.At(o);
        Ok(g.With(o, src.(units := src.units - n)).With(ToOffset(g.size, e), Cell(player, n)))
  }

  /**
   * A successful move leaves the source to the player with n fewer units,
   * gives the destination to the player with n units, and changes no other cell.
   */
  lemma MoveEffect(g: Grid, player: int, o: Offset, n: int, d: Direction)
    requires g.Valid() && g.InBounds(o)
    requires MovePlayer(g, player, o, n, d).Ok?
    ensures var r := MovePlayer(g, player, o, n, d).value;
            var e := NextEmptyCell(g, o, d);
            && e != o && g.InBounds(e) && g.At(e).occupant == EMPTY
            && r.At(o) == Cell(player, g.At(o).units - n)
            && r.At(e) == Cell(player, n)
            && forall o' :: g.InBounds(o') && o' != o && o' != e ==> r.At(o') == g.At(o')
  {
    CentredOffsetRoundTrip(g.size, o);
  }

  /**
   * `move_player` with the unit rule the game evidently intends: at least
   * one unit moves and at least one stays, `0 < n < units`. The source asks
   * for `n > 1`, so a stack of two, which `get_player_moveable_positions`
   * keeps, has no legal move. Every other check and both writes are those
   * of MovePlayer, and the two agree on every n but 1.
   */
  function MovePlayerSplit(g: Grid, player: int, o: Offset, n: int, d: Direction): (r: Result<Grid, GridError>)
    requires g.Valid() && g.InBounds(o)
    ensures r.Ok? <==> player >= 1 && g.At(o).occupant == player && 0 < n < g.At(o).units && NextEmptyCell(g, o, d) != o
    ensures r.Ok? ==> var e := NextEmptyCell(g, o, d);
                      && g.InBounds(e) && e != o && g.At(e).occupant == EMPTY
                      && r.value.Valid() && r.value.size == g.size
                      && r.value.At(o) == Cell(player, g.At(o).units - n)
                      && r.value.At(e) == Cell(player, n)
                      && forall o' :: g.InBounds(o') && o' != o && o' != e ==> r.value.At(o') == g.At(o')
    ensures n != 1 ==> r == MovePlayer(g, player, o, n, d)
  {
    CentredOffsetRoundTrip(g.size, o);
    var src := g.At(o);
    if player < 1 then Err(PreconditionViolated)
    else if src.occupant != player then Err(PreconditionViolated)
    else if !(0 < n < src.units) then Err(PreconditionViolated)
    else
      var e := NextEmptyCell(g, o, d);
      if e == o then Err(PreconditionViolated)
      else Ok(g.With(o, src.(units := src.units - n)).With(e, Cell(player, n)))
  }
}
