/**
 * The two addressing schemes of the hexagonal board: offset coordinates
 * (row, column), used to index storage, and cube coordinates (q, r, s),
 * used for direction arithmetic. Modelled on battlesheep/engine/grid.py.
 */
module Coords {

  /** The six hexagon neighbours, named as in the direction table. */
  datatype Direction = UL | UR | L | R | DL | DR

  /** The i-th entry of the direction table, in the order in which it lists them. */
  function DirectionAt(i: nat): Direction
    requires i < 6
  {
    if i == 0 then UL
    else if i == 1 then UR
    else if i == 2 then L
    else if i == 3 then R
    else if i == 4 then DL
    else DR
  }

  /** The position of a direction in the direction table. */
  function IndexOf(d: Direction): (i: nat)
    ensures i < 6 && DirectionAt(i) == d
  {
    match d
    case UL => 0
    case UR => 1
    case L  => 2
    case R  => 3
    case DL => 4
    case DR => 5
  }

  /** IndexOf inverts DirectionAt. */
  lemma IndexOfDirectionAt(i: nat)
    requires i < 6
    ensures IndexOf(DirectionAt(i)) == i
  {
  }

  /** The table lists every direction exactly once. */
  lemma DirectionTableDistinct(i: nat, j: nat)
    requires i < 6 && j < 6
    ensures DirectionAt(i) == DirectionAt(j) <==> i == j
  {
  }

  /** A cube coordinate. Only a zero-sum triple names a hexagon. */
  datatype Cube = Cube(q: int, r: int, s: int) {

    predicate ZeroSum() {
      q + r + s == 0
    }

    /** Component-wise sum; the sum of two hexagons is a hexagon. */
    function Plus(o: Cube): (c: Cube)
      ensures ZeroSum() && o.ZeroSum() ==> c.ZeroSum()
    {
      Cube(q + o.q, r + o.r, s + o.s)
    }

    /** Component-wise difference; the difference of two hexagons is a hexagon. */
    function Minus(o: Cube): (c: Cube)
      ensures ZeroSum() && o.ZeroSum() ==> c.ZeroSum()
    {
      Cube(q - o.q, r - o.r, s - o.s)
    }
  }

  /** Adding and then subtracting the same vector, in either order, is the identity. */
  lemma PlusMinusCancel(a: Cube, b: Cube)
    ensures a.Plus(b).Minus(b) == a
    ensures a.Minus(b).Plus(b) == a
  {
  }

  /** An offset coordinate: `x` is the row, `y` the column. */
  datatype Offset = Offset(x: int, y: int)

  /** The zero vector, the hexagon at the centre of cube space. */
  const Origin: Cube := Cube(0, 0, 0)

  function Abs(n: int): nat {
    if n < 0 then -n else n
  }

  /** The unit vector of a direction; its third component balances the other two. */
  function Delta(d: Direction): (v: Cube)
    ensures v.s == -v.q - v.r
  {
    match d
    case UL => Cube(0, -1, 1)
    case UR => Cube(1, -1, 0)
    case L  => Cube(-1, 0, 1)
    case R  => Cube(1, 0, -1)
    case DL => Cube(-1, 1, 0)
    case DR => Cube(0, 1, -1)
  }

  /** Every direction is a zero-sum step to a hexagon at distance one from the origin. */
  lemma DeltaIsUnit(d: Direction)
    ensures Delta(d).ZeroSum()
    ensures Abs(Delta(d).q) + Abs(Delta(d).r) + Abs(Delta(d).s) == 2
  {
  }

  /**
   * Python's `r & 1` on an int: 0 for even r and 1 for odd r, negative r
   * included (two's complement). Dafny's `%` with a positive divisor agrees.
   */
  function LowBit(r: int): (b: int)
    ensures b == 0 || b == 1
    ensures (r - b) % 2 == 0
  {
    r % 2
  }

  /**
   * Half of r, rounded toward minus infinity: Python's `r // 2`, because
   * Dafny's `/` with a positive divisor rounds down as well.
   */
  function HalfDown(r: int): (h: int)
    ensures 2 * h <= r <= 2 * h + 1
  {
    r / 2
  }

  /** HalfDown is the source's `(r - (r & 1)) // 2`. */
  lemma HalfDownMatchesSource(r: int)
    ensures HalfDown(r) == (r - LowBit(r)) / 2
  {
  }

  /** `cube_to_offset`: the row is r, the column is shifted by half the row. */
  function CubeToOffset(c: Cube): (o: Offset)
    requires c.ZeroSum()
    ensures o.x == c.r
  {
    Offset(c.r, c.q + HalfDown(c.r))
  }

  /** `offset_to_cube`: the inverse shift; the result is always a hexagon. */
  function OffsetToCube(o: Offset): (c: Cube)
    ensures c.ZeroSum()
    ensures c.r == o.x
  {
    var q := o.y - HalfDown(o.x);
    Cube(q, o.x, -q - o.x)
  }

  /**
   * The offset of a hexagon in the centred frame of a board of the given
   * size: the row is the hexagon's r component moved by half the size.
   * CentredCubeRoundTrip shows it is the offset whose hexagon c is.
   */
  function ToOffset(size: nat, c: Cube): (o: Offset)
    requires c.ZeroSum()
    ensures o.x == c.r + size / 2
  {
    var o := CubeToOffset(c);
    Offset(o.x + size / 2, o.y + size / 2)
  }

  /** The hexagon of an offset in the centred frame of a board of the given size. */
  function ToCube(size: nat, o: Offset): (c: Cube)
    ensures c.ZeroSum()
  {
    OffsetToCube(Offset(o.x - size / 2, o.y - size / 2))
  }

  /** The cells of a `size` x `size` board. */
  predicate InBoard(size: int, o: Offset) {
    0 <= o.x < size && 0 <= o.y < size
  }

  lemma OffsetRoundTrip(o: Offset)
    ensures CubeToOffset(OffsetToCube(o)) == o
  {
  }

  lemma CubeRoundTrip(c: Cube)
    requires c.ZeroSum()
    ensures OffsetToCube(CubeToOffset(c)) == c
  {
  }

  /** Every offset, in range or not, survives the centred round trip. */
  lemma CentredOffsetRoundTrip(size: nat, o: Offset)
    ensures ToOffset(size, ToCube(size, o)) == o
  {
    OffsetRoundTrip(Offset(o.x - size / 2, o.y - size / 2));
  }

  /** Every hexagon survives the centred round trip. */
  lemma CentredCubeRoundTrip(size: nat, c: Cube)
    requires c.ZeroSum()
    ensures ToCube(size, ToOffset(size, c)) == c
  {
    CubeRoundTrip(c);
  }

  /** Both conversions are injective, so distinct cells have distinct hexagons. */
  lemma ToCubeInjective(size: nat, a: Offset, b: Offset)
    ensures ToCube(size, a) == ToCube(size, b) <==> a == b
  {
    CentredOffsetRoundTrip(size, a);
    CentredOffsetRoundTrip(size, b);
  }

  /** A hexagon has exactly one offset: the offsets whose hexagon is c are ToOffset(size, c) alone. */
  lemma OffsetOfCube(size: nat, c: Cube)
    requires c.ZeroSum()
    ensures forall o :: ToCube(size, o) == c <==> o == ToOffset(size, c)
  {
    forall o | ToCube(size, o) == c
      ensures o == ToOffset(size, c)
    {
      CentredOffsetRoundTrip(size, o);
    }
    CentredCubeRoundTrip(size, c);
  }

  /**
   * Hexagons whose three components lie in [-size/2, size/2) all land on
   * the board.
   */
  lemma CentredCubesOnBoard(size: nat, c: Cube)
    requires c.ZeroSum()
    requires -(size / 2) <= c.q < size / 2
    requires -(size / 2) <= c.r < size / 2
    requires -(size / 2) <= c.s < size / 2
    ensures InBoard(size, ToOffset(size, c))
  {
    var h := HalfDown(c.r);
    if c.r >= 0 {
      assert 2 * (c.q + h) <= c.q + (c.q + c.r);
    } else {
      assert 2 * (c.q + h) >= c.q + (c.q + c.r) - 1;
    }
  }

  /** The number of steps left before the edge of a board of the given size in direction d. */
  function EdgeDistance(size: nat, c: Cube, d: Direction): nat
    requires c.ZeroSum()
  {
    var o := ToOffset(size, c);
    var m := match d
      case UL => o.x + 1
      case UR => o.x + 1
      case DL => size - o.x
      case DR => size - o.x
      case L  => o.y + 1
      case R  => size - o.y;
    if m < 0 then 0 else m
  }

  /** A step that stays on the board brings the edge one step closer. */
  lemma StepNearsEdge(size: nat, c: Cube, d: Direction)
    requires c.ZeroSum()
    requires InBoard(size, ToOffset(size, c.Plus(Delta(d))))
    ensures EdgeDistance(size, c.Plus(Delta(d)), d) < EdgeDistance(size, c, d)
  {
    StepOffset(size, c, d);
  }

  /**
   * One step in a direction moves the row by the direction's r component;
   * a step along the row (L or R) moves the column by its q component.
   */
  lemma StepOffset(size: nat, c: Cube, d: Direction)
    requires c.ZeroSum()
    ensures ToOffset(size, c.Plus(Delta(d))).x == ToOffset(size, c).x + Delta(d).r
    ensures Delta(d).r == 0 ==> ToOffset(size, c.Plus(Delta(d))).y == ToOffset(size, c).y + Delta(d).q
  {
  }

  /**
   * The neighbour of an offset cell in direction d, read off the storage
   * layout: rows whose cube row is odd are shifted half a cell to the right.
   */
  function OffsetStep(size: nat, o: Offset, d: Direction): Offset {
    var odd := LowBit(o.x - size / 2) == 1;
    match d
    case L  => Offset(o.x, o.y - 1)
    case R  => Offset(o.x, o.y + 1)
    case UL => Offset(o.x - 1, if odd then o.y else o.y - 1)
    case UR => Offset(o.x - 1, if odd then o.y + 1 else o.y)
    case DL => Offset(o.x + 1, if odd then o.y else o.y - 1)
    case DR => Offset(o.x + 1, if odd then o.y + 1 else o.y)
  }

  /** A step in cube coordinates is the offset neighbour step on the storage. */
  lemma OffsetStepAgrees(size: nat, c: Cube, d: Direction)
    requires c.ZeroSum()
    ensures ToOffset(size, c.Plus(Delta(d))) == OffsetStep(size, ToOffset(size, c), d)
  {
    var h := size / 2;
    assert ToOffset(size, c).x - h == c.r;
    var r := c.r;
    if LowBit(r) == 1 {
      assert HalfDown(r + 1) == HalfDown(r) + 1;
      assert HalfDown(r - 1) == HalfDown(r);
    } else {
      assert HalfDown(r + 1) == HalfDown(r);
      assert HalfDown(r - 1) == HalfDown(r) - 1;
    }
  }
}
