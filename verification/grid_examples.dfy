/**
 * The scenarios of battlesheep/engine/test_grid.py, stated as lemmas about
 * the grid model. The tests use a board of size 8; the lemmas hold for
 * every board large enough to contain the cells the scenario names.
 */
module GridExamples {
  import opened Coords
  import opened Results
  import opened HexGrid
  import opened GridFacts

  const Holes3: seq<Offset> := [Offset(0, 0), Offset(1, 1), Offset(2, 2)]

  /** An empty board sums to zero and scores nothing; three holes sum to -3. */
  lemma InitExample(size: nat)
    requires size >= 3
    ensures StateSum(New(size, [])) == 0 && Score(New(size, []), 1) == 0
    ensures StateSum(New(size, Holes3)) == -3 && Score(New(size, Holes3), 1) == 0
  {
    NewTotals(size, [], 1);
    ThreeHoles(size);
  }

  /** The three holes are distinct, so the new board sums to -3. */
  lemma ThreeHoles(size: nat)
    requires size >= 3
    ensures StateSum(New(size, Holes3)) == -3 && Score(New(size, Holes3), 1) == 0
  {
    NewTotals(size, Holes3, 1);
    assert HoleSet(Holes3) == {Offset(0, 0), Offset(1, 1), Offset(2, 2)};
  }

  /** The listed holes read back as holes through their cube coordinates. */
  lemma HolesExample(size: nat)
    requires size >= 3
    ensures var g := New(size, Holes3);
            forall i :: 0 <= i < |Holes3| ==>
              var h := ToCube(size, Holes3[i]);
              !g.OutOfBounds(h) && g.IsHole(h)
  {
    var g := New(size, Holes3);
    forall i | 0 <= i < |Holes3|
      ensures var h := ToCube(size, Holes3[i]);
              !g.OutOfBounds(h) && g.IsHole(h)
    {
      CentredOffsetRoundTrip(size, Holes3[i]);
    }
  }

  /** The board of the grid-values test once both stacks of 16 are placed. */
  function TwoStacks(size: nat): (g: Grid)
    requires size >= 8
    ensures g.Valid() && g.size == size
  {
    New(size, Holes3).With(Offset(1, 0), Cell(1, 16)).With(Offset(5, 7), Cell(2, 16))
  }

  /** Placing player 1 at (1, 0) and then player 2 at (5, 7) succeeds and gives TwoStacks. */
  lemma TwoStacksPlaced(size: nat)
    requires size >= 8
    ensures var g0 := New(size, Holes3);
            var c1 := ToCube(size, Offset(1, 0));
            var c2 := ToCube(size, Offset(5, 7));
            && !g0.OutOfBounds(c1) && !g0.OutOfBounds(c2)
            && var r1 := InitializePlayer(g0, 1, c1, 16);
            && r1.Ok?
            && var r2 := InitializePlayer(r1.value, 2, c2, 16);
            && r2 == Ok(TwoStacks(size))
  {
    var g0 := New(size, Holes3);
    assert Offset(1, 0) !in Holes3 && Offset(5, 7) !in Holes3;
    InitializeAt(g0, 1, Offset(1, 0), 16);
    var g1 := g0.With(Offset(1, 0), Cell(1, 16));
    assert g1.At(Offset(5, 7)) == g0.At(Offset(5, 7)) == Cell(EMPTY, 0);
    InitializeAt(g1, 2, Offset(5, 7), 16);
  }

  /**
   * The two stacks are occupied by their players only, are neither empty
   * nor holes, and hold 16 units each.
   */
  lemma GridValuesExample(size: nat)
    requires size >= 8
    ensures var g := TwoStacks(size);
            var c1 := ToCube(size, Offset(1, 0));
            var c2 := ToCube(size, Offset(5, 7));
            && !g.OutOfBounds(c1) && !g.OutOfBounds(c2)
            && !g.IsEmpty(c1) && !g.IsEmpty(c2) && !g.IsHole(c1) && !g.IsHole(c2)
            && g.IsOccupied(c1) && g.IsOccupied(c2)
            && g.IsOccupiedByPlayer(c1, 1) && g.IsOccupiedByPlayer(c2, 2)
            && !g.IsOccupiedByPlayer(c1, 2) && !g.IsOccupiedByPlayer(c2, 1)
            && g.UnitsAt(c1) == 16 && g.UnitsAt(c2) == 16
  {
    CentredOffsetRoundTrip(size, Offset(1, 0));
    CentredOffsetRoundTrip(size, Offset(5, 7));
  }

  /** Each player scores one. */
  lemma TwoStacksScores(size: nat)
    requires size >= 8
    ensures Score(TwoStacks(size), 1) == 1 && Score(TwoStacks(size), 2) == 1
  {
    var g0 := New(size, Holes3);
    var g1 := g0.With(Offset(1, 0), Cell(1, 16));
    GridTotalZero(g0, CellsOf(1));
    GridTotalZero(g0, CellsOf(2));
    WithTotal(g0, Offset(1, 0), Cell(1, 16), CellsOf(1));
    WithTotal(g0, Offset(1, 0), Cell(1, 16), CellsOf(2));
    WithTotal(g1, Offset(5, 7), Cell(2, 16), CellsOf(1));
    WithTotal(g1, Offset(5, 7), Cell(2, 16), CellsOf(2));
  }

  /** On an empty board a stack at (0, 0) slides right to the last column and cannot slide left. */
  lemma SlideExample1(size: nat)
    requires size >= 1
    ensures var g := New(size, []);
            var e := NextEmptyCell(g, Offset(0, 0), R);
            && e == Offset(0, size - 1) && g.At(e).occupant == EMPTY
    ensures NextEmptyCell(New(size, []), Offset(0, 0), L) == Offset(0, 0) && New(size, []).At(Offset(0, 0)).occupant == EMPTY
  {
    var g := New(size, []);
    RowSlide(g, Offset(0, 0), R, size - 1);
    RowSlide(g, Offset(0, 0), L, 0);
  }

  /** With a hole at (0, 4), the slide right from (0, 0) stops at (0, 3). */
  lemma SlideExample2(size: nat)
    requires size >= 5
    ensures NextEmptyCell(New(size, [Offset(0, 4)]), Offset(0, 0), R) == Offset(0, 3)
  {
    RowSlide(New(size, [Offset(0, 4)]), Offset(0, 0), R, 3);
  }

  /**
   * 16 units at (0, 0), 6 of them moved right: 10 stay, and 6 arrive for
   * player 1 at the cell where the slide ends, which was empty.
   */
  lemma MovementExample(size: nat)
    requires size >= 2
    ensures var g0 := New(size, []);
            && !g0.OutOfBounds(ToCube(size, Offset(0, 0)))
            && var r0 := InitializePlayer(g0, 1, ToCube(size, Offset(0, 0)), 16);
            && r0.Ok?
            && var e := NextEmptyCell(r0.value, Offset(0, 0), R);
            && e == Offset(0, size - 1)
            && r0.value.At(e).occupant == EMPTY
            && var r := MovePlayer(r0.value, 1, Offset(0, 0), 6, R);
            && r.Ok?
            && r.value.At(Offset(0, 0)) == Cell(1, 10)
            && r.value.At(e) == Cell(1, 6)
  {
    var g0 := New(size, []);
    InitializeAt(g0, 1, Offset(0, 0), 16);
    var g := g0.With(Offset(0, 0), Cell(1, 16));
    RowSlide(g, Offset(0, 0), R, size - 1);
    MoveEffect(g, 1, Offset(0, 0), 6, R);
  }
}
