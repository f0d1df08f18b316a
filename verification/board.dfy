/**
 * The board of battlesheep/engine/board.py: the list of actions a player
 * can take, and the board's own `move_player`. The board keeps the same
 * (occupant, units) storage as the grid and is addressed by offset
 * coordinates; the queries it relies on are the grid's.
 */
module Board {
  import opened Coords
  import opened Results
  import opened HexGrid
  import opened GridFacts

  /** An action: the offset of the stack to move and the direction to slide it in. */
  datatype Action = Action(origin: Offset, direction: Direction)

  /**
   * An action the player may take: the origin is one of the player's
   * moveable cells and the slide in that direction leaves it.
   */
  ghost predicate IsAction(g: Grid, player: int, a: Action)
    requires g.Valid()
  {
    g.Moveable(player, a.origin) && NextEmptyCell(g, a.origin, a.direction) != a.origin
  }

  /**
   * The same notion read off the storage alone: the origin is a cell of the
   * player's holding more than one unit, and the neighbouring cell in the
   * action's direction is on the board and empty.
   */
  predicate NeighbourAction(g: Grid, player: int, a: Action)
    requires g.Valid()
  {
    && g.InBounds(a.origin)
    && g.At(a.origin).occupant == player
    && g.At(a.origin).units > 1
    && var n := OffsetStep(g.size, a.origin, a.direction);
    && g.InBounds(n) && g.At(n).occupant == EMPTY
  }

  /** An action is exactly a stack of two or more units next to an empty cell. */
  lemma IsActionIffOpenNeighbour(g: Grid, player: int, a: Action)
    requires g.Valid()
    ensures IsAction(g, player, a) <==> NeighbourAction(g, player, a)
  {
    var c := ToCube(g.size, a.origin);
    NextEmptyCellLeaves(g, a.origin, a.direction);
    CentredOffsetRoundTrip(g.size, a.origin);
    OffsetStepAgrees(g.size, c, a.direction);
    if g.Open(c.Plus(Delta(a.direction))) {
      OpenNeighbourGivesMove(g, c, a.direction);
    }
  }

  /** The actions of one moveable cell, direction by direction, appended to acts. */
  method ActionsFrom(g: Grid, o: Offset, acts: seq<Action>) returns (acts': seq<Action>)
    requires g.Valid()
    requires forall a :: a in acts ==> a.origin != o
    requires forall i, j :: 0 <= i < j < |acts| ==> acts[i] != acts[j]
    ensures forall a :: a in acts' <==> a in acts || (a.origin == o && NextEmptyCell(g, o, a.direction) != o)
    ensures forall i, j :: 0 <= i < j < |acts'| ==> acts'[i] != acts'[j]
  {
    acts' := acts;
    for i := 0 to 6
      invariant forall a :: a in acts' <==>
        a in acts || (a.origin == o && IndexOf(a.direction) < i && NextEmptyCell(g, o, a.direction) != o)
      invariant forall i, j :: 0 <= i < j < |acts'| ==> acts'[i] != acts'[j]
    {
      var d := DirectionAt(i);
      IndexOfDirectionAt(i);
      var e := NextEmptyCell(g, o, d);
      if o != e {
        acts' := acts' + [Action(o, d)];
      }
    }
  }

  /**
   * `get_actions`: for every moveable cell of the player and every
   * direction, the action whose slide leaves the cell; each action once.
   */
  method GetActions(g: Grid, player: int) returns (acts: seq<Action>)
    requires g.Valid() && player >= 1
    ensures forall a :: a in acts <==> IsAction(g, player, a)
    ensures forall i, j :: 0 <= i < j < |acts| ==> acts[i] != acts[j]
  {
    var ps := MoveablePositions(g, player);
    acts := [];
    for k := 0 to |ps|
      invariant forall a :: a in acts <==> a.origin in ps[..k] && IsAction(g, player, a)
      invariant forall i, j :: 0 <= i < j < |acts| ==> acts[i] != acts[j]
    {
      assert forall a :: a in acts ==> a.origin != ps[k];
      acts := ActionsFrom(g, ps[k], acts);
      assert ps[..k + 1] == ps[..k] + [ps[k]];
    }
    assert ps[..|ps|] == ps;
  }

  /**
   * The board's `get_score` as written: it takes the length of the
   * comparison mask, and the length of a two-dimensional mask is its
   * number of rows, whatever the cells hold.
   */
  function GetScoreAsWritten(g: Grid, player: int): (r: Result<int, GridError>)
    requires g.Valid()
    ensures r.Ok? <==> player >= 1
    ensures r.Ok? ==> r.value == g.size
  {
    if player < 1 then Err(PreconditionViolated) else Ok(|g.cells|)
  }

  /** The board's `get_score` with the evident count: the cells the player occupies. */
  function GetScore(g: Grid, player: int): (r: Result<int, GridError>)
    requires g.Valid()
    ensures r.Ok? <==> player >= 1
    ensures r.Ok? ==> 0 <= r.value <= g.size * g.size
  {
    if player < 1 then Err(PreconditionViolated)
    else Ok(Score(g, player))
  }

  /** On an empty board the written score is the board's size; the corrected one is zero. */
  lemma GetScoreAsWrittenCountsRows(size: nat)
    requires size >= 1
    ensures GetScoreAsWritten(New(size, []), 1) == Ok(size)
    ensures GetScore(New(size, []), 1) == Ok(0)
  {
    NewTotals(size, [], 1);
  }

  /**
   * The corrected score starts at zero on a new board and grows by one with
   * each stack the player places.
   */
  lemma GetScoreCountsPlacements(g: Grid, player: int, o: Offset, n: int)
    requires g.Valid() && g.InBounds(o) && player >= 1
    requires g.At(o).occupant == EMPTY
    ensures GetScore(g.With(o, Cell(player, n)), player).value == GetScore(g, player).value + 1
  {
    InitializeAt(g, player, o, n);
    InitializeEffect(g, player, ToCube(g.size, o), n);
  }

  /**
   * The board's `move_player` as written: its check that the slide moved
   * compares the column with itself, so it only accepts a move whose
   * destination lies in another row.
   */
  function MovePlayerAsWritten(g: Grid, player: int, o: Offset, n: int, d: Direction): (r: Result<Grid, GridError>)
    requires g.Valid() && g.InBounds(o)
    ensures r.Ok? ==> NextEmptyCell(g, o, d).x != o.x
  {
    var src := g.At(o);
    if player < 1 then Err(PreconditionViolated)
    else if src.occupant <= EMPTY then Err(PreconditionViolated)
    else if src.occupant != player then Err(PreconditionViolated)
    else if !(n > 1 && n < src.units) then Err(PreconditionViolated)
    else
      var e := NextEmptyCell(g, o, d);
      var nx, ny := e.x, e.y;
      if !(g.At(e).occupant == EMPTY && (nx != o.x || ny != ny)) then Err(PreconditionViolated)
      else Ok(g.With(o, src.(units := src.units - n)).With(e, Cell(player, n)))
  }

  /** The board's `move_player` with the evident check: the destination differs from the origin. */
  function MovePlayer(g: Grid, player: int, o: Offset, n: int, d: Direction): (r: Result<Grid, GridError>)
    requires g.Valid() && g.InBounds(o)
    ensures r.Ok? <==> MoveAllowed(g, player, o, n, d)
    ensures r.Ok? ==> var e := NextEmptyCell(g, o, d);
                      && g.InBounds(e) && e != o
                      && r.value.Valid() && r.value.size == g.size
                      && r.value.At(o) == Cell(player, g.At(o).units - n)
                      && r.value.At(e) == Cell(player, n)
                      && forall o' :: g.InBounds(o') && o' != o && o' != e ==> r.value.At(o') == g.At(o')
  {
    var src := g.At(o);
    if player < 1 then Err(PreconditionViolated)
    else if src.occupant <= EMPTY then Err(PreconditionViolated)
    else if src.occupant != player then Err(PreconditionViolated)
    else if !(n > 1 && n < src.units) then Err(PreconditionViolated)
    else
      var e := NextEmptyCell(g, o, d);
      if !(g.At(e).occupant == EMPTY && e != o) then Err(PreconditionViolated)
      else Ok(g.With(o, src.(units := src.units - n)).With(e, Cell(player, n)))
  }

  /** The corrected board move and the grid's move give the same result on every input. */
  lemma MovePlayerAgreesWithGrid(g: Grid, player: int, o: Offset, n: int, d: Direction)
    requires g.Valid() && g.InBounds(o)
    ensures MovePlayer(g, player, o, n, d) == HexGrid.MovePlayer(g, player, o, n, d)
  {
    CentredOffsetRoundTrip(g.size, o);
  }

  /** A slide along a row never changes the row. */
  lemma RowSlideKeepsRow(g: Grid, o: Offset, d: Direction)
    requires g.Valid() && (d == L || d == R)
    ensures NextEmptyCell(g, o, d).x == o.x
  {
    var c := ToCube(g.size, o);
    var k := g.SlideSteps(c, d);
    WalkLine(c, d, k);
    CentredOffsetRoundTrip(g.size, o);
  }

  /** A slide in any other direction changes the row exactly when it moves at all. */
  lemma OtherSlideChangesRow(g: Grid, o: Offset, d: Direction)
    requires g.Valid() && d != L && d != R
    ensures NextEmptyCell(g, o, d).x != o.x <==> NextEmptyCell(g, o, d) != o
  {
    var c := ToCube(g.size, o);
    var k := g.SlideSteps(c, d);
    WalkLine(c, d, k);
    CentredOffsetRoundTrip(g.size, o);
  }

  /** As written, every move along a row is rejected, whatever the board. */
  lemma AsWrittenRejectsRowMoves(g: Grid, player: int, o: Offset, n: int, d: Direction)
    requires g.Valid() && g.InBounds(o) && (d == L || d == R)
    ensures MovePlayerAsWritten(g, player, o, n, d).Err?
  {
    RowSlideKeepsRow(g, o, d);
  }

  /** In the other four directions the written check is the intended one. */
  lemma AsWrittenAgreesOffRow(g: Grid, player: int, o: Offset, n: int, d: Direction)
    requires g.Valid() && g.InBounds(o) && d != L && d != R
    ensures MovePlayerAsWritten(g, player, o, n, d) == MovePlayer(g, player, o, n, d)
  {
    OtherSlideChangesRow(g, o, d);
  }

  /**
   * As written, `move_player` moves more than one unit and leaves at least
   * one, so an action of a stack of two, which `get_actions` lists, can be
   * carried out with no unit count at all.
   */
  lemma PairStackCannotMove(g: Grid, player: int, a: Action)
    requires g.Valid() && IsAction(g, player, a) && g.At(a.origin).units == 2
    ensures forall n :: MovePlayer(g, player, a.origin, n, a.direction).Err?
    ensures forall n :: HexGrid.MovePlayer(g, player, a.origin, n, a.direction).Err?
  {
    forall n
      ensures HexGrid.MovePlayer(g, player, a.origin, n, a.direction).Err?
    {
      MovePlayerAgreesWithGrid(g, player, a.origin, n, a.direction);
    }
  }

  /**
   * With the intended unit rule every listed action can be carried out: it
   * succeeds for exactly the counts that move some units and leave some.
   */
  lemma EveryActionCanBeTaken(g: Grid, player: int, a: Action, n: int)
    requires g.Valid() && player >= 1 && IsAction(g, player, a)
    ensures MovePlayerSplit(g, player, a.origin, n, a.direction).Ok? <==> 0 < n < g.At(a.origin).units
    ensures MovePlayerSplit(g, player, a.origin, 1, a.direction).Ok?
  {
  }
}
