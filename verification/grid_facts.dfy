/**
 * Properties of the grid of battlesheep/engine/grid.py that relate several
 * operations: what a slide is, how the sums behind `get_score` change, and
 * what construction, initialisation and moves keep.
 */
module GridFacts {
  import opened Coords
  import opened Results
  import opened HexGrid

  // ---------------------------------------------------------------------
  // The slide, against its step-by-step description

  /** A walk of k steps moves by k times the direction vector. */
  lemma {:induction false} WalkLine(c: Cube, d: Direction, k: nat)
    ensures Walk(c, d, k) == Cube(c.q + k * Delta(d).q, c.r + k * Delta(d).r, c.s + k * Delta(d).s)
    decreases k
  {
    if k > 0 {
      var v := Delta(d);
      WalkLine(c.Plus(v), d, k - 1);
      assert k * v.q == (k - 1) * v.q + v.q;
      assert k * v.r == (k - 1) * v.r + v.r;
      assert k * v.s == (k - 1) * v.s + v.s;
    }
  }

  /** Each of steps 1..k from c in direction d lands on an open hexagon. */
  ghost predicate StepsOpen(g: Grid, c: Cube, d: Direction, k: nat)
    requires g.Valid()
  {
    forall j :: 1 <= j <= k ==> g.Open(Walk(c, d, j))
  }

  /** Step j of an open run of k steps lands on an open hexagon. */
  lemma {:induction false} OpenRunStep(g: Grid, c: Cube, d: Direction, k: nat, j: nat)
    requires g.Valid() && g.OpenRun(c, d, k) && 1 <= j <= k
    ensures g.Open(Walk(c, d, j))
    decreases j
  {
    if j > 1 {
      OpenRunStep(g, c.Plus(Delta(d)), d, k - 1, j - 1);
    }
  }

  /** If steps 1..k all land on open hexagons, the k hexagons form an open run. */
  lemma {:induction false} StepsFormOpenRun(g: Grid, c: Cube, d: Direction, k: nat)
    requires g.Valid()
    requires StepsOpen(g, c, d, k)
    ensures g.OpenRun(c, d, k)
    decreases k
  {
    if k > 0 {
      var next := c.Plus(Delta(d));
      assert Walk(c, d, 1) == next;
      forall j | 1 <= j <= k - 1
        ensures g.Open(Walk(next, d, j))
      {
        assert Walk(c, d, j + 1) == Walk(next, d, j);
      }
      StepsFormOpenRun(g, next, d, k - 1);
    }
  }

  /** The k hexagons after c in direction d are open exactly when each of steps 1..k lands on an open hexagon. */
  lemma OpenRunAll(g: Grid, c: Cube, d: Direction, k: nat)
    requires g.Valid()
    ensures g.OpenRun(c, d, k) <==> StepsOpen(g, c, d, k)
  {
    if g.OpenRun(c, d, k) {
      forall j | 1 <= j <= k
        ensures g.Open(Walk(c, d, j))
      {
        OpenRunStep(g, c, d, k, j);
      }
    }
    if StepsOpen(g, c, d, k) {
      StepsFormOpenRun(g, c, d, k);
    }
  }

  /** Two maximal open runs from the same hexagon in the same direction have the same length. */
  lemma MaximalRunUnique(g: Grid, c: Cube, d: Direction, k1: nat, k2: nat)
    requires g.Valid()
    requires StepsOpen(g, c, d, k1) && !g.Open(Walk(c, d, k1 + 1))
    requires StepsOpen(g, c, d, k2) && !g.Open(Walk(c, d, k2 + 1))
    ensures k1 == k2
  {
  }

  /**
   * The slide from c in direction d ends after exactly k steps if and only
   * if the steps 1..k all land on open hexagons and step k + 1 does not:
   * the result is the origin or the farthest open hexagon in a straight run.
   */
  lemma SlideIsLongestOpenRun(g: Grid, c: Cube, d: Direction, k: nat)
    requires g.Valid() && c.ZeroSum()
    ensures g.Slide(c, d) == Walk(c, d, k) <==> StepsOpen(g, c, d, k) && !g.Open(Walk(c, d, k + 1))
  {
    var steps := g.SlideSteps(c, d);
    OpenRunAll(g, c, d, steps);
    if StepsOpen(g, c, d, k) && !g.Open(Walk(c, d, k + 1)) {
      MaximalRunUnique(g, c, d, k, steps);
    }
    if g.Slide(c, d) == Walk(c, d, k) {
      WalkProgress(c, d, k);
      WalkProgress(c, d, steps);
    }
  }

  /** The cell j steps from o along its row, to the right for R and to the left for L. */
  function RowCell(o: Offset, d: Direction, j: int): Offset
    requires d == L || d == R
  {
    Offset(o.x, if d == R then o.y + j else o.y - j)
  }

  /** A walk along a row stays in the row and moves one column per step. */
  lemma {:induction false} RowWalkOffset(size: nat, c: Cube, d: Direction, j: nat)
    requires c.ZeroSum() && (d == L || d == R)
    ensures ToOffset(size, Walk(c, d, j)) == RowCell(ToOffset(size, c), d, j)
    decreases j
  {
    if j > 0 {
      OffsetStepAgrees(size, c, d);
      RowWalkOffset(size, c.Plus(Delta(d)), d, j - 1);
    }
  }

  /** The j-th cell of a walk along a row is open exactly when its row cell is on the board and empty. */
  lemma RowOpen(g: Grid, c: Cube, d: Direction, j: nat)
    requires g.Valid() && c.ZeroSum() && (d == L || d == R)
    ensures var rc := RowCell(ToOffset(g.size, c), d, j);
            g.Open(Walk(c, d, j)) <==> g.InBounds(rc) && g.At(rc).occupant == EMPTY
  {
    RowWalkOffset(g.size, c, d, j);
  }

  /**
   * Along a row, a slide covers the k empty cells that follow o and stops
   * before the first cell that is off the board or not empty.
   */
  lemma RowSlide(g: Grid, o: Offset, d: Direction, k: nat)
    requires g.Valid() && (d == L || d == R)
    requires forall j :: 1 <= j <= k ==> g.InBounds(RowCell(o, d, j)) && g.At(RowCell(o, d, j)).occupant == EMPTY
    requires !g.InBounds(RowCell(o, d, k + 1)) || g.At(RowCell(o, d, k + 1)).occupant != EMPTY
    ensures NextEmptyCell(g, o, d) == RowCell(o, d, k)
  {
    var c := ToCube(g.size, o);
    CentredOffsetRoundTrip(g.size, o);
    assert StepsOpen(g, c, d, k) by {
      forall j | 1 <= j <= k
        ensures g.Open(Walk(c, d, j))
      {
        RowOpen(g, c, d, j);
      }
    }
    RowOpen(g, c, d, k + 1);
    SlideIsLongestOpenRun(g, c, d, k);
    RowWalkOffset(g.size, c, d, k);
  }

  // ---------------------------------------------------------------------
  // Sums over the storage array

  lemma {:induction false} RowTotalUpdate(row: seq<Cell>, y: int, v: Cell, m: Measure)
    requires 0 <= y < |row|
    ensures RowTotal(row[y := v], m) == RowTotal(row, m) - Weight(m, row[y]) + Weight(m, v)
    decreases |row|
  {
    var last := |row| - 1;
    if y == last {
      assert row[y := v][..last] == row[..last];
    } else {
      assert row[y := v][..last] == row[..last][y := v];
      RowTotalUpdate(row[..last], y, v, m);
    }
  }

  lemma {:induction false} RowsTotalUpdate(rows: seq<seq<Cell>>, x: int, row: seq<Cell>, m: Measure)
    requires 0 <= x < |rows|
    ensures RowsTotal(rows[x := row], m) == RowsTotal(rows, m) - RowTotal(rows[x], m) + RowTotal(row, m)
    decreases |rows|
  {
    var last := |rows| - 1;
    if x == last {
      assert rows[x := row][..last] == rows[..last];
    } else {
      assert rows[x := row][..last] == rows[..last][x := row];
      RowsTotalUpdate(rows[..last], x, row, m);
    }
  }

  /** Replacing one cell changes a sum by the difference of the two cells' weights. */
  lemma WithTotal(g: Grid, o: Offset, v: Cell, m: Measure)
    requires g.Valid() && g.InBounds(o)
    ensures RowsTotal(g.With(o, v).cells, m) == RowsTotal(g.cells, m) - Weight(m, g.At(o)) + Weight(m, v)
  {
    RowTotalUpdate(g.cells[o.x], o.y, v, m);
    RowsTotalUpdate(g.cells, o.x, g.cells[o.x][o.y := v], m);
  }

  lemma {:induction false} RowTotalZero(row: seq<Cell>, m: Measure)
    requires forall i :: 0 <= i < |row| ==> Weight(m, row[i]) == 0
    ensures RowTotal(row, m) == 0
    decreases |row|
  {
    if row != [] {
      RowTotalZero(row[..|row| - 1], m);
    }
  }

  lemma {:induction false} RowsTotalZero(rows: seq<seq<Cell>>, m: Measure)
    requires forall i, j :: 0 <= i < |rows| && 0 <= j < |rows[i]| ==> Weight(m, rows[i][j]) == 0
    ensures RowsTotal(rows, m) == 0
    decreases |rows|
  {
    if rows != [] {
      var last := |rows| - 1;
      RowTotalZero(rows[last], m);
      RowsTotalZero(rows[..last], m);
    }
  }

  /** A sum over a grid whose every cell weighs nothing is zero. */
  lemma GridTotalZero(g: Grid, m: Measure)
    requires g.Valid()
    requires forall o :: g.InBounds(o) ==> Weight(m, g.At(o)) == 0
    ensures RowsTotal(g.cells, m) == 0
  {
    forall i, j | 0 <= i < |g.cells| && 0 <= j < |g.cells[i]|
      ensures Weight(m, g.cells[i][j]) == 0
    {
      assert g.InBounds(Offset(i, j));
    }
    RowsTotalZero(g.cells, m);
  }


  // ---------------------------------------------------------------------
  // Construction

  /** The distinct coordinates of a list of holes. */
  ghost function HoleSet(holes: seq<Offset>): set<Offset> {
    set h | h in holes
  }

  /**
   * A new board has no units and scores nothing for any player, and its
   * storage sums to minus the number of distinct holes.
   */
  lemma NewTotals(size: nat, holes: seq<Offset>, player: int)
    requires forall i :: 0 <= i < |holes| ==> InBoard(size, holes[i])
    requires player >= 1
    ensures Score(New(size, holes), player) == 0
    ensures TotalUnits(New(size, holes)) == 0
    ensures StateSum(New(size, holes)) == -|HoleSet(holes)|
  {
    var g := New(size, holes);
    GridTotalZero(g, CellsOf(player));
    GridTotalZero(g, Units);
    NewStateSum(size, holes);
  }

  /** Each distinct hole adds -1 to the storage sum of a new board. */
  lemma {:induction false} NewStateSum(size: nat, holes: seq<Offset>)
    requires forall i :: 0 <= i < |holes| ==> InBoard(size, holes[i])
    ensures StateSum(New(size, holes)) == -|HoleSet(holes)|
    decreases |holes|
  {
    if holes == [] {
      GridTotalZero(New(size, holes), Codes);
    } else {
      var prefix := holes[..|holes| - 1];
      var h := holes[|holes| - 1];
      NewStateSum(size, prefix);
      NewStateSumStep(size, prefix, h);
      HoleSetStep(prefix, h);
      assert holes == prefix + [h];
    }
  }

  /** One more hole lowers the storage sum by one, unless it is already a hole. */
  lemma NewStateSumStep(size: nat, prefix: seq<Offset>, h: Offset)
    requires forall i :: 0 <= i < |prefix| ==> InBoard(size, prefix[i])
    requires InBoard(size, h)
    ensures forall i :: 0 <= i < |prefix + [h]| ==> InBoard(size, (prefix + [h])[i])
    ensures StateSum(New(size, prefix + [h])) == StateSum(New(size, prefix)) - if h in prefix then 0 else 1
  {
    var holes := prefix + [h];
    assert forall i :: 0 <= i < |holes| ==> InBoard(size, holes[i]);
    assert holes[..|holes| - 1] == prefix;
    var g0 := New(size, prefix);
    WithTotal(g0, h, Cell(HOLE, 0), Codes);
  }

  lemma HoleSetStep(prefix: seq<Offset>, h: Offset)
    ensures |HoleSet(prefix + [h])| == |HoleSet(prefix)| + if h in prefix then 0 else 1
  {
    assert HoleSet(prefix + [h]) == HoleSet(prefix) + {h};
    if h in prefix {
      assert h in HoleSet(prefix);
      assert HoleSet(prefix + [h]) == HoleSet(prefix);
    } else {
      assert h !in HoleSet(prefix);
      assert |HoleSet(prefix) + {h}| == |HoleSet(prefix)| + 1;
    }
  }

  // ---------------------------------------------------------------------
  // Initialisation

  /**
   * Placing a player's stack on an empty hexagon raises that player's score
   * by one, leaves every other player's score alone, adds the stack's units
   * to the board and keeps the storage consistent.
   */
  lemma InitializeEffect(g: Grid, player: int, c: Cube, n: int)
    requires g.Valid() && c.ZeroSum() && !g.OutOfBounds(c)
    requires InitializePlayer(g, player, c, n).Ok?
    ensures var r := InitializePlayer(g, player, c, n).value;
            && Score(r, player) == Score(g, player) + 1
            && (forall q :: q >= 1 && q != player ==> Score(r, q) == Score(g, q))
            && (g.Consistent() ==> r.Consistent() && TotalUnits(r) == TotalUnits(g) + n)
  {
    var o := ToOffset(g.size, c);
    var r := InitializePlayer(g, player, c, n).value;
    assert r == g.With(o, Cell(player, n));
    WithTotal(g, o, Cell(player, n), CellsOf(player));
    WithTotal(g, o, Cell(player, n), Units);
    forall q | q >= 1 && q != player
      ensures Score(r, q) == Score(g, q)
    {
      WithTotal(g, o, Cell(player, n), CellsOf(q));
    }
    if g.Consistent() {
      assert g.At(o).units == 0;
      forall o' | r.InBounds(o')
        ensures CellOk(r.At(o'))
      {
        if o' != o {
          assert r.At(o') == g.At(o');
        }
      }
    }
  }

  /**
   * `initialize_player` addressed by offset: it succeeds exactly when the
   * cell is empty and the player id positive, and then writes the stack
   * into that one cell.
   */
  lemma InitializeAt(g: Grid, player: int, o: Offset, n: int)
    requires g.Valid() && g.InBounds(o)
    ensures !g.OutOfBounds(ToCube(g.size, o))
    ensures InitializePlayer(g, player, ToCube(g.size, o), n)
         == if g.At(o).occupant == EMPTY && player >= 1 then Ok(g.With(o, Cell(player, n))) else Err(PreconditionViolated)
  {
    CentredOffsetRoundTrip(g.size, o);
  }

  // ---------------------------------------------------------------------
  // Moves

  /** The grid a successful move returns, cell by cell. */
  lemma MoveResult(g: Grid, player: int, o: Offset, n: int, d: Direction)
    requires g.Valid() && g.InBounds(o)
    requires MovePlayer(g, player, o, n, d).Ok?
    ensures MovePlayer(g, player, o, n, d).value
         == g.With(o, Cell(player, g.At(o).units - n)).With(NextEmptyCell(g, o, d), Cell(player, n))
  {
    MoveValue(g, player, o, n, d);
    assert NextEmptyCell(g, o, d) == ToOffset(g.size, g.Slide(ToCube(g.size, o), d));
  }

  /** A successful move is made by the player on the source, and writes the source and then the slide's end. */
  lemma MoveValue(g: Grid, player: int, o: Offset, n: int, d: Direction)
    requires g.Valid() && g.InBounds(o)
    requires MovePlayer(g, player, o, n, d).Ok?
    ensures g.At(o).occupant == player
    ensures MovePlayer(g, player, o, n, d).value
         == g.With(o, g.At(o).(units := g.At(o).units - n)).With(ToOffset(g.size, g.Slide(ToCube(g.size, o), d)), Cell(player, n))
  {
  }

  /**
   * A move on a consistent grid keeps it consistent, conserves the units on
   * the board, keeps every hole a hole and creates none, and raises the
   * mover's score by exactly one while every other player's score stays.
   */
  lemma MoveKeeps(g: Grid, player: int, o: Offset, n: int, d: Direction)
    requires g.Consistent() && g.InBounds(o)
    requires MovePlayer(g, player, o, n, d).Ok?
    ensures var r := MovePlayer(g, player, o, n, d).value;
            && r.Consistent()
            && TotalUnits(r) == TotalUnits(g)
            && (forall o' :: g.InBounds(o') ==> (r.At(o').occupant == HOLE <==> g.At(o').occupant == HOLE))
            && Score(r, player) == Score(g, player) + 1
            && (forall q :: q >= 1 && q != player ==> Score(r, q) == Score(g, q))
  {
    var r := MovePlayer(g, player, o, n, d).value;
    var e := NextEmptyCell(g, o, d);
    var src := Cell(player, g.At(o).units - n);
    MoveEffect(g, player, o, n, d);
    MoveResult(g, player, o, n, d);
    var g1 := g.With(o, src);
    assert r == g1.With(e, Cell(player, n));
    assert g1.At(e) == g.At(e);
    WithTotal(g, o, src, Units);
    WithTotal(g1, e, Cell(player, n), Units);
    WithTotal(g, o, src, CellsOf(player));
    WithTotal(g1, e, Cell(player, n), CellsOf(player));
    forall q | q >= 1 && q != player
      ensures Score(r, q) == Score(g, q)
    {
      WithTotal(g, o, src, CellsOf(q));
      WithTotal(g1, e, Cell(player, n), CellsOf(q));
    }
    forall o' | r.InBounds(o')
      ensures CellOk(r.At(o'))
    {
      if o' != o && o' != e {
        assert r.At(o') == g.At(o');
      }
    }
  }
}
