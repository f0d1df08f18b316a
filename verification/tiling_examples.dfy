/**
 * The scenarios of battlesheep/engine/test_tiling.py, plus one refused
 * join and the projection of the basic tile. Each concrete fact (where a
 * hexagon lands, that a list repeats nothing) is proved on its own and
 * then handed to a general lemma about joins.
 */
module TilingExamples {
  import opened Coords
  import opened Results
  import opened Tiling

  /** Joining a single hexagon that lands on pa, when that repeats nothing, appends pa. */
  lemma JoinsSingle(t: Tile, a: Cube, c1: Cube, c2: Cube, d: Direction, pa: Cube)
    requires Place(c1, c2, d, a) == pa && Distinct(t.space + [pa])
    ensures Join(t, Tile([a]), c1, c2, d) == Ok(Tile(t.space + [pa]))
  {
    assert Placed([a], c1, c2, d) == [pa];
    JoinIsConcatenation(t, Tile([a]), c1, c2, d);
  }

  /** Joining a tile of four hexagons that land on pa, pb, pc and pe, when that repeats nothing, appends them. */
  lemma JoinsFour(t: Tile, a: Cube, b: Cube, c: Cube, e: Cube, c1: Cube, c2: Cube, d: Direction,
                  pa: Cube, pb: Cube, pc: Cube, pe: Cube)
    requires Place(c1, c2, d, a) == pa && Place(c1, c2, d, b) == pb
    requires Place(c1, c2, d, c) == pc && Place(c1, c2, d, e) == pe
    requires Distinct(t.space + [pa, pb, pc, pe])
    ensures Join(t, Tile([a, b, c, e]), c1, c2, d) == Ok(Tile(t.space + [pa, pb, pc, pe]))
  {
    assert Placed([a, b, c, e], c1, c2, d) == [pa, pb, pc, pe];
    JoinIsConcatenation(t, Tile([a, b, c, e]), c1, c2, d);
  }

  /** A join in which the i-th hexagon of the other tile lands on the k-th of the first is refused. */
  lemma RefusedAt(t: Tile, other: Tile, c1: Cube, c2: Cube, d: Direction, i: nat, k: nat)
    requires i < |other.space| && k < |t.space|
    requires Place(c1, c2, d, other.space[i]) == t.space[k]
    ensures Join(t, other, c1, c2, d) == Err(NoMatch)
  {
    JoinRefused(t, other, c1, c2, d, i);
  }

  lemma LandsRight()
    ensures Place(Origin, Origin, R, Origin) == Cube(1, 0, -1)
  {
  }

  lemma LandsUpLeft()
    ensures Place(Origin, Origin, UL, Origin) == Cube(0, -1, 1)
  {
  }

  lemma LandsUpRight()
    ensures Place(Origin, Origin, UR, Origin) == Cube(1, -1, 0)
  {
  }

  lemma PairDistinct()
    ensures [Origin] + [Cube(1, 0, -1)] == [Origin, Cube(1, 0, -1)]
    ensures Distinct([Origin, Cube(1, 0, -1)])
  {
  }

  /** Two single hexagons joined to the right cover the origin and its right neighbour. */
  lemma HexagonJoinExample()
    ensures Join(SingleHexagon, SingleHexagon, Origin, Origin, R) == Ok(Tile([Origin, Cube(1, 0, -1)]))
  {
    LandsRight();
    PairDistinct();
    JoinsSingle(SingleHexagon, Origin, Origin, Origin, R, Cube(1, 0, -1));
  }

  lemma TripleDistinct()
    ensures [Origin, Cube(1, 0, -1)] + [Cube(0, -1, 1)] == [Origin, Cube(1, 0, -1), Cube(0, -1, 1)]
    ensures Distinct([Origin, Cube(1, 0, -1), Cube(0, -1, 1)])
  {
  }

  lemma QuadrupleDistinct()
    ensures [Origin, Cube(1, 0, -1), Cube(0, -1, 1)] + [Cube(1, -1, 0)] == [Origin, Cube(1, 0, -1), Cube(0, -1, 1), Cube(1, -1, 0)]
    ensures Distinct([Origin, Cube(1, 0, -1), Cube(0, -1, 1), Cube(1, -1, 0)])
  {
  }

  lemma SameHexagons()
    ensures Elems([Origin, Cube(1, 0, -1), Cube(0, -1, 1), Cube(1, -1, 0)]) == Elems(BasicTile.space)
  {
  }

  /** The single hexagon is the origin, a hexagon. */
  lemma SingleHexagonShape()
    ensures SingleHexagon.Valid() && SingleHexagon.space == [Origin]
  {
  }

  /** The basic tile is made of hexagons: the origin, then its up-left, up-right and right neighbours, which are the unit steps from it. */
  lemma BasicTileShape()
    ensures BasicTile.Valid()
    ensures BasicTile.space == [Origin, Delta(UL), Delta(UR), Delta(R)]
  {
  }

  /** Joining single hexagons to the right, up-left and up-right rebuilds the basic tile. */
  lemma HexagonsToTileExample()
    ensures var t1 := Join(SingleHexagon, SingleHexagon, Origin, Origin, R);
            && t1.Ok?
            && var t2 := Join(t1.value, SingleHexagon, Origin, Origin, UL);
            && t2.Ok?
            && var t3 := Join(t2.value, SingleHexagon, Origin, Origin, UR);
            && t3.Ok?
            && Elems(t3.value.space) == Elems(BasicTile.space)
  {
    HexagonJoinExample();
    LandsUpLeft();
    TripleDistinct();
    JoinsSingle(Tile([Origin, Cube(1, 0, -1)]), Origin, Origin, Origin, UL, Cube(0, -1, 1));
    LandsUpRight();
    QuadrupleDistinct();
    JoinsSingle(Tile([Origin, Cube(1, 0, -1), Cube(0, -1, 1)]), Origin, Origin, Origin, UR, Cube(1, -1, 0));
    SameHexagons();
  }

  lemma ShiftedOrigin()
    ensures Place(Cube(1, -1, 0), Origin, UR, Cube(0, 0, 0)) == Cube(2, -2, 0)
  {
  }

  lemma ShiftedUpLeft()
    ensures Place(Cube(1, -1, 0), Origin, UR, Cube(0, -1, 1)) == Cube(2, -3, 1)
  {
  }

  lemma ShiftedUpRight()
    ensures Place(Cube(1, -1, 0), Origin, UR, Cube(1, -1, 0)) == Cube(3, -3, 0)
  {
  }

  lemma ShiftedRight()
    ensures Place(Cube(1, -1, 0), Origin, UR, Cube(1, 0, -1)) == Cube(3, -2, -1)
  {
  }

  lemma ShiftedDistinct()
    ensures Distinct(BasicTile.space + [Cube(2, -2, 0), Cube(2, -3, 1), Cube(3, -3, 0), Cube(3, -2, -1)])
  {
  }

  lemma ShiftedHexagons()
    ensures Elems(BasicTile.space + [Cube(2, -2, 0), Cube(2, -3, 1), Cube(3, -3, 0), Cube(3, -2, -1)]) == {
              Cube(0, 0, 0), Cube(0, -1, 1), Cube(1, -1, 0), Cube(1, 0, -1),
              Cube(2, -2, 0), Cube(2, -3, 1), Cube(3, -3, 0), Cube(3, -2, -1)
            }
  {
  }

  /** Two basic tiles joined up-right, anchored at (1, -1, 0) and the origin, cover eight hexagons. */
  lemma TileJoinExample()
    ensures var t := Join(BasicTile, BasicTile, Cube(1, -1, 0), Origin, UR);
            && t.Ok?
            && Elems(t.value.space) == {
                 Cube(0, 0, 0), Cube(0, -1, 1), Cube(1, -1, 0), Cube(1, 0, -1),
                 Cube(2, -2, 0), Cube(2, -3, 1), Cube(3, -3, 0), Cube(3, -2, -1)
               }
  {
    ShiftedOrigin();
    ShiftedUpLeft();
    ShiftedUpRight();
    ShiftedRight();
    ShiftedDistinct();
    ShiftedHexagons();
    JoinsFour(BasicTile, Cube(0, 0, 0), Cube(0, -1, 1), Cube(1, -1, 0), Cube(1, 0, -1), Cube(1, -1, 0), Origin, UR,
              Cube(2, -2, 0), Cube(2, -3, 1), Cube(3, -3, 0), Cube(3, -2, -1));
  }

  lemma BasicTileCorners()
    ensures BasicTile.space[0] == Origin && BasicTile.space[3] == Cube(1, 0, -1)
  {
  }

  /** Joining a basic tile to the right of its own origin lands its origin on a hexagon it already covers. */
  lemma OverlapExample()
    ensures Join(BasicTile, BasicTile, Origin, Origin, R) == Err(NoMatch)
  {
    LandsRight();
    BasicTileCorners();
    RefusedAt(BasicTile, BasicTile, Origin, Origin, R, 0, 3);
  }

  lemma BasicTileOffsets()
    ensures Offsets(BasicTile.space) == [Offset(0, 0), Offset(-1, -1), Offset(-1, 0), Offset(0, 1)]
  {
    assert CubeToOffset(Cube(0, -1, 1)) == Offset(-1, -1);
    assert CubeToOffset(Cube(1, -1, 0)) == Offset(-1, 0);
    assert CubeToOffset(Cube(1, 0, -1)) == Offset(0, 1);
  }

  /** An extent that bounds every offset and whose four bounds are attained is the extent. */
  lemma ExtentIs(os: seq<Offset>, e: Extent, i0: nat, j0: nat, i1: nat, j1: nat)
    requires i0 < |os| && j0 < |os| && i1 < |os| && j1 < |os|
    requires forall i :: 0 <= i < |os| ==> e.x0 <= os[i].x <= e.x1 && e.y0 <= os[i].y <= e.y1
    requires os[i0].x == e.x0 && os[j0].y == e.y0 && os[i1].x == e.x1 && os[j1].y == e.y1
    ensures ExtentOf(os) == e
  {
    var f := ExtentOf(os);
    assert f.x0 <= os[i0].x && f.y0 <= os[j0].y && os[i1].x <= f.x1 && os[j1].y <= f.y1;
    var a :| 0 <= a < |os| && Rows(os)[a] == f.x0;
    var b :| 0 <= b < |os| && Cols(os)[b] == f.y0;
    var c :| 0 <= c < |os| && Rows(os)[c] == f.x1;
    var d :| 0 <= d < |os| && Cols(os)[d] == f.y1;
  }

  lemma BasicTileExtent()
    ensures ExtentOf([Offset(0, 0), Offset(-1, -1), Offset(-1, 0), Offset(0, 1)]) == Extent(-1, -1, 0, 1)
  {
    ExtentIs([Offset(0, 0), Offset(-1, -1), Offset(-1, 0), Offset(0, 1)], Extent(-1, -1, 0, 1), 1, 1, 0, 3);
  }

  lemma BasicTileMask()
    ensures Mask([Offset(0, 0), Offset(-1, -1), Offset(-1, 0), Offset(0, 1)], Extent(-1, -1, 0, 1)) == [[0, 0, -1], [-1, 0, 0]]
  {
    var m := Mask([Offset(0, 0), Offset(-1, -1), Offset(-1, 0), Offset(0, 1)], Extent(-1, -1, 0, 1));
    assert m[0] == [0, 0, -1];
    assert m[1] == [-1, 0, 0];
  }

  /** The basic tile projects onto two rows of three, with one corner of each row uncovered. */
  lemma BasicTileSquareGrid()
    ensures ToSquareGrid(BasicTile) == Ok([[0, 0, -1], [-1, 0, 0]])
  {
    BasicTileOffsets();
    BasicTileExtent();
    BasicTileMask();
  }

  /** A tile without hexagons has no projection. */
  lemma EmptyTileSquareGrid()
    ensures ToSquareGrid(Tile([])) == Err(EmptyTile)
  {
  }
}
