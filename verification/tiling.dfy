/**
 * The tile construction of battlesheep/engine/tiling.py: tiles are lists of
 * hexagons in cube coordinates; joining places one tile next to another
 * and refuses an overlap; a tile projects onto a square 0/-1 array.
 */
module Tiling {
  import opened Coords
  import opened Results

  /**
   * A `HexCoord` is a cube coordinate whose components sum to zero (its
   * constructor asserts it); a list of them is a list of such cubes.
   */
  ghost predicate Hexes(s: seq<Cube>) {
    forall i :: 0 <= i < |s| ==> s[i].ZeroSum()
  }

  datatype TileError =
    | Overlap       // `_join_two_tiles`: 'Tiles overlap.'
    | NoMatch       // `join`: 'Tiles do not match.'
    | EmptyTile     // `to_square_grid` on a tile without hexagons: the minimum of an empty array

  // ---------------------------------------------------------------------
  // Lists of hexagons

  /** The distinct hexagons of a list, what `set(...)` builds. */
  function Elems(s: seq<Cube>): set<Cube> {
    set c | c in s
  }

  /** No hexagon appears twice. */
  predicate Distinct(s: seq<Cube>) {
    forall i, j :: 0 <= i < j < |s| ==> s[i] != s[j]
  }

  /** A list has at least as many entries as distinct hexagons, and exactly as many when it repeats none. */
  lemma {:induction false} ElemsCount(s: seq<Cube>)
    ensures |Elems(s)| <= |s|
    ensures |Elems(s)| == |s| <==> Distinct(s)
    decreases |s|
  {
    if s != [] {
      var p := s[..|s| - 1];
      var x := s[|s| - 1];
      assert s == p + [x];
      assert Elems(s) == Elems(p) + {x};
      ElemsCount(p);
      if x in Elems(p) {
        assert Elems(s) == Elems(p);
        var k :| 0 <= k < |p| && p[k] == x;
        assert s[k] == s[|s| - 1];
      } else {
        assert |Elems(s)| == |Elems(p)| + 1;
        if Distinct(p) {
          forall i, j | 0 <= i < j < |s|
            ensures s[i] != s[j]
          {
            if j == |s| - 1 {
              assert s[i] == p[i];
            } else {
              assert s[i] == p[i] && s[j] == p[j];
            }
          }
        } else {
          var i, j :| 0 <= i < j < |p| && p[i] == p[j];
          assert s[i] == s[j];
        }
      }
    }
  }

  // ---------------------------------------------------------------------
  // Joining

  /** Where a hexagon c of the other tile lands: its offset from c2, applied one step from c1. */
  function Place(c1: Cube, c2: Cube, d: Direction, c: Cube): Cube {
    c1.Plus(Delta(d)).Plus(c.Minus(c2))
  }

  /** A placed hexagon is a hexagon. */
  lemma PlaceZeroSum(c1: Cube, c2: Cube, d: Direction, c: Cube)
    requires c1.ZeroSum() && c2.ZeroSum() && c.ZeroSum()
    ensures Place(c1, c2, d, c).ZeroSum()
  {
  }

  /** Place is the source's `c1 + (c - c2) + dir_vector`, summed in another order. */
  lemma PlaceMatchesSource(c1: Cube, c2: Cube, d: Direction, c: Cube)
    ensures Place(c1, c2, d, c) == c1.Plus(c.Minus(c2)).Plus(Delta(d))
  {
  }

  /** The anchor c2 lands on the neighbour of c1 in direction d. */
  lemma AnchorIsNeighbour(c1: Cube, c2: Cube, d: Direction)
    ensures Place(c1, c2, d, c2) == c1.Plus(Delta(d))
    ensures Place(c1, c2, d, c2).Minus(c1) == Delta(d)
  {
  }

  /** Placement is a translation: it keeps the difference between any two hexagons. */
  lemma PlaceIsTranslation(c1: Cube, c2: Cube, d: Direction, a: Cube, b: Cube)
    ensures Place(c1, c2, d, a).Minus(Place(c1, c2, d, b)) == a.Minus(b)
  {
  }

  /** So two hexagons land together only when they are equal. */
  lemma PlaceInjective(c1: Cube, c2: Cube, d: Direction, a: Cube, b: Cube)
    ensures Place(c1, c2, d, a) == Place(c1, c2, d, b) <==> a == b
  {
  }

  /** The other tile's hexagons, each placed, in their order. */
  function Placed(other: seq<Cube>, c1: Cube, c2: Cube, d: Direction): (ps: seq<Cube>)
    ensures |ps| == |other|
    ensures forall i :: 0 <= i < |other| ==> ps[i] == Place(c1, c2, d, other[i])
    decreases |other|
  {
    if other == [] then []
    else Placed(other[..|other| - 1], c1, c2, d) + [Place(c1, c2, d, other[|other| - 1])]
  }

  /** A placed list repeats a hexagon exactly when the original does. */
  lemma PlacedDistinct(other: seq<Cube>, c1: Cube, c2: Cube, d: Direction)
    ensures Distinct(Placed(other, c1, c2, d)) <==> Distinct(other)
  {
    var ps := Placed(other, c1, c2, d);
    forall i, j | 0 <= i < j < |other|
      ensures ps[i] == ps[j] <==> other[i] == other[j]
    {
      PlaceInjective(c1, c2, d, other[i], other[j]);
    }
  }

  /** Two lists concatenated repeat nothing exactly when neither does and they share nothing. */
  lemma ConcatDistinct(a: seq<Cube>, b: seq<Cube>)
    ensures Distinct(a + b) <==> Distinct(a) && Distinct(b) && forall i :: 0 <= i < |b| ==> b[i] !in a
  {
    var s := a + b;
    if Distinct(s) {
      forall i, j | 0 <= i < j < |a|
        ensures a[i] != a[j]
      {
        assert s[i] == a[i] && s[j] == a[j];
      }
      forall i, j | 0 <= i < j < |b|
        ensures b[i] != b[j]
      {
        assert s[|a| + i] == b[i] && s[|a| + j] == b[j];
      }
      forall i, k | 0 <= i < |b| && 0 <= k < |a|
        ensures a[k] != b[i]
      {
        assert s[k] == a[k] && s[|a| + i] == b[i];
      }
    }
    if Distinct(a) && Distinct(b) && forall i :: 0 <= i < |b| ==> b[i] !in a {
      forall i, j | 0 <= i < j < |s|
        ensures s[i] != s[j]
      {
        if j < |a| {
          assert s[i] == a[i] && s[j] == a[j];
        } else if i < |a| {
          assert s[j] == b[j - |a|] && s[i] == a[i];
          assert b[j - |a|] !in a;
        } else {
          assert s[i] == b[i - |a|] && s[j] == b[j - |a|];
        }
      }
    }
  }

  /**
   * `_join_two_tiles`: the first tile's hexagons followed by the other's,
   * each placed; refused when the combined list repeats a hexagon.
   */
  function JoinTwoTiles(one: seq<Cube>, other: seq<Cube>, c1: Cube, c2: Cube, d: Direction)
    : (r: Result<seq<Cube>, TileError>)
    ensures r.Ok? ==> |r.value| == |one| + |other|
    ensures r.Ok? ==> r.value[..|one|] == one
    ensures r.Ok? ==> forall i :: 0 <= i < |other| ==> r.value[|one| + i] == Place(c1, c2, d, other[i])
    ensures r.Err? ==> r.error == Overlap
  {
    var joined := one + Placed(other, c1, c2, d);
    if |joined| > |Elems(joined)| then Err(Overlap) else Ok(joined)
  }

  /**
   * The overlap rule: a join succeeds exactly when neither tile repeats a
   * hexagon and no placed hexagon of the other tile lands on the first.
   * A successful join repeats nothing.
   */
  lemma JoinOverlapRule(one: seq<Cube>, other: seq<Cube>, c1: Cube, c2: Cube, d: Direction)
    ensures JoinTwoTiles(one, other, c1, c2, d).Ok?
        <==> && Distinct(one) && Distinct(other)
             && forall i :: 0 <= i < |other| ==> Place(c1, c2, d, other[i]) !in one
    ensures JoinTwoTiles(one, other, c1, c2, d).Ok? ==> Distinct(JoinTwoTiles(one, other, c1, c2, d).value)
  {
    var ps := Placed(other, c1, c2, d);
    ElemsCount(one + ps);
    ConcatDistinct(one, ps);
    PlacedDistinct(other, c1, c2, d);
  }

  /** `_try_join_tiles`: the joined list, or None where the join raises. */
  function TryJoinTiles(one: seq<Cube>, other: seq<Cube>, c1: Cube, c2: Cube, d: Direction)
    : (r: Option<seq<Cube>>)
    ensures r.None? <==> JoinTwoTiles(one, other, c1, c2, d).Err?
    ensures r.Some? ==> r.value == JoinTwoTiles(one, other, c1, c2, d).value
  {
    match JoinTwoTiles(one, other, c1, c2, d)
    case Ok(s) => Some(s)
    case Err(_) => None
  }

  /** `HexagonalTile`: the hexagons a tile, or a stack of joined tiles, covers. */
  datatype Tile = Tile(space: seq<Cube>) {
    ghost predicate Valid() {
      Hexes(space)
    }
  }

  /**
   * `join`: the tile with the other one placed next to it. On failure the
   * error is 'Tiles do not match.' and the caller keeps the unchanged tile.
   */
  function Join(t: Tile, other: Tile, c1: Cube, c2: Cube, d: Direction): (r: Result<Tile, TileError>)
    ensures r.Ok? <==> JoinTwoTiles(t.space, other.space, c1, c2, d).Ok?
    ensures r.Ok? ==> |r.value.space| == |t.space| + |other.space|
    ensures r.Ok? ==> r.value.space[..|t.space|] == t.space
    ensures r.Ok? ==> Elems(r.value.space) == Elems(t.space) + Elems(Placed(other.space, c1, c2, d))
    ensures r.Err? ==> r.error == NoMatch
  {
    match TryJoinTiles(t.space, other.space, c1, c2, d)
    case None => Err(NoMatch)
    case Some(s) => Ok(Tile(s))
  }

  /**
   * A join succeeds exactly when the first tile followed by the placed
   * other tile repeats no hexagon, and then it is that list.
   */
  lemma JoinIsConcatenation(t: Tile, other: Tile, c1: Cube, c2: Cube, d: Direction)
    ensures Join(t, other, c1, c2, d).Ok? <==> Distinct(t.space + Placed(other.space, c1, c2, d))
    ensures Join(t, other, c1, c2, d).Ok? ==> Join(t, other, c1, c2, d).value.space == t.space + Placed(other.space, c1, c2, d)
  {
    ElemsCount(t.space + Placed(other.space, c1, c2, d));
  }

  /** A join whose placed hexagon lands on the first tile is refused with 'Tiles do not match.' */
  lemma JoinRefused(t: Tile, other: Tile, c1: Cube, c2: Cube, d: Direction, i: int)
    requires 0 <= i < |other.space| && Place(c1, c2, d, other.space[i]) in t.space
    ensures Join(t, other, c1, c2, d) == Err(NoMatch)
  {
    JoinOverlapRule(t.space, other.space, c1, c2, d);
  }

  /** Joining two tiles of hexagons at hexagon anchors gives a tile of hexagons. */
  lemma JoinKeepsHexes(t: Tile, other: Tile, c1: Cube, c2: Cube, d: Direction)
    requires t.Valid() && other.Valid() && c1.ZeroSum() && c2.ZeroSum()
    requires Join(t, other, c1, c2, d).Ok?
    ensures Join(t, other, c1, c2, d).value.Valid()
  {
    var s := Join(t, other, c1, c2, d).value.space;
    forall i | 0 <= i < |s|
      ensures s[i].ZeroSum()
    {
      if i >= |t.space| {
        PlaceZeroSum(c1, c2, d, other.space[i - |t.space|]);
      } else {
        assert s[i] == s[..|t.space|][i];
      }
    }
  }

  /** `SingleHexagon`: the origin alone. */
  const SingleHexagon: Tile := Tile([Origin])

  /** `BasicTile`: the origin and its neighbours up-left, up-right and right. */
  const BasicTile: Tile := Tile([Cube(0, 0, 0), Cube(0, -1, 1), Cube(1, -1, 0), Cube(1, 0, -1)])

  // ---------------------------------------------------------------------
  // Projection onto a square array

  /** The offset coordinates of a list of hexagons, in order. */
  function Offsets(s: seq<Cube>): (os: seq<Offset>)
    requires Hexes(s)
    ensures |os| == |s|
    ensures forall i :: 0 <= i < |s| ==> os[i] == CubeToOffset(s[i])
    decreases |s|
  {
    if s == [] then [] else Offsets(s[..|s| - 1]) + [CubeToOffset(s[|s| - 1])]
  }

  function MinOf(xs: seq<int>): (m: int)
    requires |xs| > 0
    ensures m in xs && forall i :: 0 <= i < |xs| ==> m <= xs[i]
    decreases |xs|
  {
    if |xs| == 1 then xs[0]
    else
      var m := MinOf(xs[..|xs| - 1]);
      assert forall i :: 0 <= i < |xs| - 1 ==> xs[..|xs| - 1][i] == xs[i];
      if xs[|xs| - 1] < m then xs[|xs| - 1] else m
  }

  function MaxOf(xs: seq<int>): (m: int)
    requires |xs| > 0
    ensures m in xs && forall i :: 0 <= i < |xs| ==> xs[i] <= m
    decreases |xs|
  {
    if |xs| == 1 then xs[0]
    else
      var m := MaxOf(xs[..|xs| - 1]);
      assert forall i :: 0 <= i < |xs| - 1 ==> xs[..|xs| - 1][i] == xs[i];
      if xs[|xs| - 1] > m then xs[|xs| - 1] else m
  }

  function Rows(os: seq<Offset>): (xs: seq<int>)
    ensures |xs| == |os| && forall i :: 0 <= i < |os| ==> xs[i] == os[i].x
  {
    seq(|os|, i requires 0 <= i < |os| => os[i].x)
  }

  function Cols(os: seq<Offset>): (ys: seq<int>)
    ensures |ys| == |os| && forall i :: 0 <= i < |os| ==> ys[i] == os[i].y
  {
    seq(|os|, i requires 0 <= i < |os| => os[i].y)
  }

  /** The smallest and largest row and column of a list of offsets. */
  datatype Extent = Extent(x0: int, y0: int, x1: int, y1: int)

  /** The extent of a non-empty list: every offset lies within it, and each bound is attained. */
  function ExtentOf(os: seq<Offset>): (e: Extent)
    requires |os| > 0
    ensures forall i :: 0 <= i < |os| ==> e.x0 <= os[i].x <= e.x1 && e.y0 <= os[i].y <= e.y1
    ensures e.x0 in Rows(os) && e.x1 in Rows(os) && e.y0 in Cols(os) && e.y1 in Cols(os)
  {
    Extent(MinOf(Rows(os)), MinOf(Cols(os)), MaxOf(Rows(os)), MaxOf(Cols(os)))
  }

  /** A rectangular array of the given shape whose every entry is 0 or -1. */
  predicate IsMask(a: seq<seq<int>>, rows: nat, cols: nat) {
    && |a| == rows
    && forall i :: 0 <= i < rows ==> |a[i]| == cols && forall j :: 0 <= j < cols ==> a[i][j] in {0, -1}
  }

  /** The array spanning the extent, 0 where a listed offset falls and -1 elsewhere. */
  function Mask(os: seq<Offset>, e: Extent): (m: seq<seq<int>>)
    requires e.x0 <= e.x1 && e.y0 <= e.y1
    ensures IsMask(m, e.x1 - e.x0 + 1, e.y1 - e.y0 + 1)
    ensures forall i, j :: 0 <= i < |m| && 0 <= j < |m[i]| ==> (m[i][j] == 0 <==> Offset(e.x0 + i, e.y0 + j) in os)
  {
    seq(e.x1 - e.x0 + 1, i => seq(e.y1 - e.y0 + 1, j => if Offset(e.x0 + i, e.y0 + j) in os then 0 else -1))
  }

  /**
   * `to_square_grid`: project every hexagon to offset coordinates, shift
   * so that the smallest row and column are 0, and mark the covered cells
   * 0 in an array of -1 just large enough to hold them. A tile without
   * hexagons has no minimum.
   */
  function ToSquareGrid(t: Tile): (r: Result<seq<seq<int>>, TileError>)
    requires t.Valid()
    ensures r.Err? <==> t.space == []
    ensures r.Err? ==> r.error == EmptyTile
    ensures r.Ok? ==> var e := ExtentOf(Offsets(t.space));
                      IsMask(r.value, e.x1 - e.x0 + 1, e.y1 - e.y0 + 1)
  {
    if t.space == [] then Err(EmptyTile)
    else
      var os := Offsets(t.space);
      var e := ExtentOf(os);
      assert e.x0 <= os[0].x <= e.x1 && e.y0 <= os[0].y <= e.y1;
      Ok(Mask(os, e))
  }

  /**
   * The array a, read from the corner (e.x0, e.y0), marks each listed
   * offset 0, and every cell it marks 0 is a listed offset.
   */
  ghost predicate MarksExactly(a: seq<seq<int>>, os: seq<Offset>, e: Extent) {
    && (forall k :: 0 <= k < |os| ==>
          0 <= os[k].x - e.x0 < |a| && 0 <= os[k].y - e.y0 < |a[os[k].x - e.x0]|
          && a[os[k].x - e.x0][os[k].y - e.y0] == 0)
    && (forall i, j :: 0 <= i < |a| && 0 <= j < |a[i]| && a[i][j] == 0 ==>
          exists k :: 0 <= k < |os| && os[k] == Offset(e.x0 + i, e.y0 + j))
  }

  /** Within the extent, the mask marks each listed offset and only those. */
  lemma MaskMarksOffsets(os: seq<Offset>)
    requires |os| > 0
    ensures MarksExactly(Mask(os, ExtentOf(os)), os, ExtentOf(os))
  {
    MaskMarksEach(os);
    MaskMarksOnly(os);
  }

  lemma MaskMarksEach(os: seq<Offset>)
    requires |os| > 0
    ensures var e := ExtentOf(os);
            var m := Mask(os, e);
            forall k :: 0 <= k < |os| ==>
              0 <= os[k].x - e.x0 < |m| && 0 <= os[k].y - e.y0 < |m[os[k].x - e.x0]|
              && m[os[k].x - e.x0][os[k].y - e.y0] == 0
  {
    var e := ExtentOf(os);
    forall k | 0 <= k < |os| {
      MaskAt(os, e, k);
    }
  }

  /** A listed offset inside the extent is marked 0 at its shifted cell. */
  lemma MaskAt(os: seq<Offset>, e: Extent, k: nat)
    requires k < |os| && e.x0 <= os[k].x <= e.x1 && e.y0 <= os[k].y <= e.y1
    ensures var m := Mask(os, e);
            && 0 <= os[k].x - e.x0 < |m| && 0 <= os[k].y - e.y0 < |m[os[k].x - e.x0]|
            && m[os[k].x - e.x0][os[k].y - e.y0] == 0
  {
    var i, j := os[k].x - e.x0, os[k].y - e.y0;
    assert Offset(e.x0 + i, e.y0 + j) == os[k];
  }

  lemma MaskMarksOnly(os: seq<Offset>)
    requires |os| > 0
    ensures var e := ExtentOf(os);
            var m := Mask(os, e);
            forall i, j :: 0 <= i < |m| && 0 <= j < |m[i]| && m[i][j] == 0 ==>
              exists k :: 0 <= k < |os| && os[k] == Offset(e.x0 + i, e.y0 + j)
  {
  }

  /**
   * Every hexagon of the tile marks its shifted cell 0, and every cell
   * marked 0 is the shifted offset of a hexagon of the tile.
   */
  lemma SquareGridCoversTile(t: Tile)
    requires t.Valid() && t.space != []
    ensures MarksExactly(ToSquareGrid(t).value, Offsets(t.space), ExtentOf(Offsets(t.space)))
  {
    MaskMarksOffsets(Offsets(t.space));
  }
}
