/**
 * The scenario of battlesheep/engine/test_board.py on an 8 x 8 board with
 * holes at (1, 1), (2, 2) and (0, 7): the actions of both players before
 * and after each moves two units along its row.
 *
 * A board is described by a layout, the cell at every offset; the lemmas
 * reason about actions through NeighbourAction, which reads the storage
 * directly.
 */
module BoardExamples {
  import opened Coords
  import opened Results
  import opened HexGrid
  import opened GridFacts
  import opened Board

  const TestHoles: seq<Offset> := [Offset(1, 1), Offset(2, 2), Offset(0, 7)]

  /** The storage of an 8 x 8 board reads, cell by cell, as the layout. */
  ghost predicate Shows(g: Grid, layout: Offset -> Cell) {
    g.Valid() && g.size == 8 && forall o :: g.InBounds(o) ==> g.At(o) == layout(o)
  }

  /** Player 1 has 16 units at (0, 0), player 2 has 16 at (7, 7). */
  function Start(o: Offset): Cell {
    if o == Offset(0, 0) then Cell(1, 16)
    else if o == Offset(7, 7) then Cell(2, 16)
    else if o in TestHoles then Cell(HOLE, 0)
    else Cell(EMPTY, 0)
  }

  /** Both players have moved two units from their first stack along the row. */
  function Moved(o: Offset): Cell {
    if o == Offset(0, 0) then Cell(1, 14)
    else if o == Offset(0, 6) then Cell(1, 2)
    else if o == Offset(7, 7) then Cell(2, 14)
    else if o == Offset(7, 0) then Cell(2, 2)
    else if o in TestHoles then Cell(HOLE, 0)
    else Cell(EMPTY, 0)
  }

  /**
   * Construction with the test's holes, then a stack of 16 for each player
   * written into its cell, yields the starting layout; by InitializeAt this
   * is what `initialize_player` produces when both cells are empty.
   */
  lemma StartPlaced()
    ensures var g0 := New(8, TestHoles);
            && g0.At(Offset(0, 0)).occupant == EMPTY
            && var g1 := g0.With(Offset(0, 0), Cell(1, 16));
            && g1.At(Offset(7, 7)).occupant == EMPTY
            && Shows(g1.With(Offset(7, 7), Cell(2, 16)), Start)
  {
    var g0 := New(8, TestHoles);
    assert Offset(0, 0) !in TestHoles && Offset(7, 7) !in TestHoles;
    var g1 := g0.With(Offset(0, 0), Cell(1, 16));
    assert g1.At(Offset(7, 7)) == g0.At(Offset(7, 7));
    var g2 := g1.With(Offset(7, 7), Cell(2, 16));
    forall o | g2.InBounds(o)
      ensures g2.At(o) == Start(o)
    {
      if o != Offset(0, 0) && o != Offset(7, 7) {
        assert g2.At(o) == g1.At(o) == g0.At(o);
      }
    }
  }

  // ---------------------------------------------------------------------
  // Actions at the start

  lemma StartNeighbours1(g: Grid, a: Action)
    requires Shows(g, Start)
    ensures NeighbourAction(g, 1, a) <==> a in {Action(Offset(0, 0), R), Action(Offset(0, 0), DR)}
  {
    var n := OffsetStep(g.size, a.origin, a.direction);
    if g.InBounds(a.origin) && g.At(a.origin).occupant == 1 {
      assert a.origin == Offset(0, 0);
      if g.InBounds(n) {
        assert g.At(n) == Start(n);
      }
    }
  }

  lemma StartNeighbours2(g: Grid, a: Action)
    requires Shows(g, Start)
    ensures NeighbourAction(g, 2, a) <==> a in {Action(Offset(7, 7), UL), Action(Offset(7, 7), L)}
  {
    var n := OffsetStep(g.size, a.origin, a.direction);
    if g.InBounds(a.origin) && g.At(a.origin).occupant == 2 {
      assert a.origin == Offset(7, 7);
      if g.InBounds(n) {
        assert g.At(n) == Start(n);
      }
    }
  }

  /** At the start, player 1 may slide right or down-right from (0, 0), and nothing else. */
  lemma StartActions1(g: Grid)
    requires Shows(g, Start)
    ensures forall a :: IsAction(g, 1, a) <==> a in {Action(Offset(0, 0), R), Action(Offset(0, 0), DR)}
  {
    forall a
      ensures IsAction(g, 1, a) <==> a in {Action(Offset(0, 0), R), Action(Offset(0, 0), DR)}
    {
      IsActionIffOpenNeighbour(g, 1, a);
      StartNeighbours1(g, a);
    }
  }

  /** At the start, player 2 may slide up-left or left from (7, 7), and nothing else. */
  lemma StartActions2(g: Grid)
    requires Shows(g, Start)
    ensures forall a :: IsAction(g, 2, a) <==> a in {Action(Offset(7, 7), UL), Action(Offset(7, 7), L)}
  {
    forall a
      ensures IsAction(g, 2, a) <==> a in {Action(Offset(7, 7), UL), Action(Offset(7, 7), L)}
    {
      IsActionIffOpenNeighbour(g, 2, a);
      StartNeighbours2(g, a);
    }
  }

  // ---------------------------------------------------------------------
  // The two moves

  /** Player 1 has moved two units from (0, 0) to (0, 6). */
  function FirstMoved(o: Offset): Cell {
    if o == Offset(0, 0) then Cell(1, 14)
    else if o == Offset(0, 6) then Cell(1, 2)
    else Start(o)
  }

  /** From (0, 0) a slide right stops at (0, 6), before the hole at (0, 7). */
  lemma FirstSlide(g: Grid)
    requires Shows(g, Start)
    ensures NextEmptyCell(g, Offset(0, 0), R) == Offset(0, 6)
  {
    assert g.At(Offset(0, 7)) == Start(Offset(0, 7));
    forall j | 1 <= j <= 6
      ensures g.InBounds(RowCell(Offset(0, 0), R, j)) && g.At(RowCell(Offset(0, 0), R, j)).occupant == EMPTY
    {
      assert g.At(Offset(0, j)) == Start(Offset(0, j));
    }
    RowSlide(g, Offset(0, 0), R, 6);
  }

  /** Player 1 moves two units right from (0, 0). */
  lemma FirstMove(g: Grid)
    requires Shows(g, Start)
    ensures var r := Board.MovePlayer(g, 1, Offset(0, 0), 2, R);
            r.Ok? && Shows(r.value, FirstMoved)
  {
    FirstSlide(g);
    assert g.At(Offset(0, 0)) == Cell(1, 16) && g.At(Offset(0, 6)) == Cell(EMPTY, 0);
    var r := Board.MovePlayer(g, 1, Offset(0, 0), 2, R);
    assert r.Ok?;
    forall o | r.value.InBounds(o)
      ensures r.value.At(o) == FirstMoved(o)
    {
      assert g.At(o) == Start(o);
    }
  }

  /** From (7, 7) a slide left crosses the whole empty row to (7, 0). */
  lemma SecondSlide(g: Grid)
    requires Shows(g, FirstMoved)
    ensures NextEmptyCell(g, Offset(7, 7), L) == Offset(7, 0)
  {
    forall j | 1 <= j <= 7
      ensures g.InBounds(RowCell(Offset(7, 7), L, j)) && g.At(RowCell(Offset(7, 7), L, j)).occupant == EMPTY
    {
      assert g.At(Offset(7, 7 - j)) == FirstMoved(Offset(7, 7 - j));
    }
    RowSlide(g, Offset(7, 7), L, 7);
  }

  /** Player 2 then moves two units left from (7, 7). */
  lemma SecondMove(g: Grid)
    requires Shows(g, FirstMoved)
    ensures var r := Board.MovePlayer(g, 2, Offset(7, 7), 2, L);
            r.Ok? && Shows(r.value, Moved)
  {
    SecondSlide(g);
    assert g.At(Offset(7, 7)) == Cell(2, 16) && g.At(Offset(7, 0)) == Cell(EMPTY, 0);
    var r := Board.MovePlayer(g, 2, Offset(7, 7), 2, L);
    assert r.Ok?;
    forall o | r.value.InBounds(o)
      ensures r.value.At(o) == Moved(o)
    {
      assert g.At(o) == FirstMoved(o);
    }
  }

  // ---------------------------------------------------------------------
  // Actions after the moves

  const MovedActions1: set<Action> := {
    Action(Offset(0, 0), R), Action(Offset(0, 0), DR),
    Action(Offset(0, 6), L), Action(Offset(0, 6), DL), Action(Offset(0, 6), DR)
  }

  const MovedActions2: set<Action> := {
    Action(Offset(7, 7), UL), Action(Offset(7, 7), L),
    Action(Offset(7, 0), R), Action(Offset(7, 0), UR), Action(Offset(7, 0), UL)
  }

  lemma MovedNeighbours1(g: Grid, a: Action)
    requires Shows(g, Moved)
    ensures NeighbourAction(g, 1, a) <==> a in MovedActions1
  {
    var n := OffsetStep(g.size, a.origin, a.direction);
    if g.InBounds(a.origin) && g.At(a.origin).occupant == 1 {
      assert a.origin == Offset(0, 0) || a.origin == Offset(0, 6);
      if g.InBounds(n) {
        assert g.At(n) == Moved(n);
      }
    }
  }

  lemma MovedNeighbours2(g: Grid, a: Action)
    requires Shows(g, Moved)
    ensures NeighbourAction(g, 2, a) <==> a in MovedActions2
  {
    var n := OffsetStep(g.size, a.origin, a.direction);
    if g.InBounds(a.origin) && g.At(a.origin).occupant == 2 {
      assert a.origin == Offset(7, 7) || a.origin == Offset(7, 0);
      if g.InBounds(n) {
        assert g.At(n) == Moved(n);
      }
    }
  }

  /** After the moves, player 1 has the two old actions and three from (0, 6). */
  lemma MovedActionsOf1(g: Grid)
    requires Shows(g, Moved)
    ensures forall a :: IsAction(g, 1, a) <==> a in MovedActions1
  {
    forall a
      ensures IsAction(g, 1, a) <==> a in MovedActions1
    {
      IsActionIffOpenNeighbour(g, 1, a);
      MovedNeighbours1(g, a);
    }
  }

  /** After the moves, player 2 has the two old actions and three from (7, 0). */
  lemma MovedActionsOf2(g: Grid)
    requires Shows(g, Moved)
    ensures forall a :: IsAction(g, 2, a) <==> a in MovedActions2
  {
    forall a
      ensures IsAction(g, 2, a) <==> a in MovedActions2
    {
      IsActionIffOpenNeighbour(g, 2, a);
      MovedNeighbours2(g, a);
    }
  }

  /**
   * The first move of the test, which the corrected move accepts, is
   * refused by `move_player` as written.
   */
  lemma AsWrittenRefusesFirstMove(g: Grid)
    requires Shows(g, Start)
    ensures Board.MovePlayer(g, 1, Offset(0, 0), 2, R).Ok?
    ensures MovePlayerAsWritten(g, 1, Offset(0, 0), 2, R).Err?
  {
    FirstMove(g);
    AsWrittenRejectsRowMoves(g, 1, Offset(0, 0), 2, R);
  }

  /**
   * After both moves player 1's actions include ((0, 6), L), but the stack
   * at (0, 6) holds two units: `move_player` as written refuses it for every
   * unit count, while the intended rule lets one unit slide.
   */
  lemma MovedPairStack(g: Grid)
    requires Shows(g, Moved)
    ensures IsAction(g, 1, Action(Offset(0, 6), L))
    ensures forall n :: HexGrid.MovePlayer(g, 1, Offset(0, 6), n, L).Err?
    ensures MovePlayerSplit(g, 1, Offset(0, 6), 1, L).Ok?
  {
    var a := Action(Offset(0, 6), L);
    MovedActionsOf1(g);
    assert a in MovedActions1;
    assert g.At(Offset(0, 6)) == Moved(Offset(0, 6));
    PairStackCannotMove(g, 1, a);
    EveryActionCanBeTaken(g, 1, a, 1);
  }
}
