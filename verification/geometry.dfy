/** Points with i32 coordinates and the one-step offset of each direction. */
module Geometry {
  import opened Panics

  const I32Min: int := -0x8000_0000
  const I32Max: int := 0x7fff_ffff

  /** The values of a Rust `i32`. */
  type Int32 = v: int | I32Min <= v <= I32Max

  datatype Point = Point(x: Int32, y: Int32)

  /** The four cardinal directions; north is towards smaller y. */
  datatype Direction = North | South | East | West

  /** The direction that undoes a step in `d`. */
  function Opposite(d: Direction): (o: Direction)
    ensures o != d
  {
    match d
    case North => South
    case South => North
    case East => West
    case West => East
  }

  /** `q` differs from `p` in exactly one coordinate, and by exactly one. */
  predicate Adjacent(p: Point, q: Point) {
    || (p.x == q.x && (q.y == p.y + 1 || q.y == p.y - 1))
    || (p.y == q.y && (q.x == p.x + 1 || q.x == p.x - 1))
  }

  /** The point one step from (x, y) in direction `d`. The `+ 1` or `- 1` is
      i32 arithmetic, which a debug build checks for overflow. */
  function GetDirection(x: Int32, y: Int32, d: Direction): (r: Result<Point>)
    ensures r.Err? <==>
              || (d == North && y == I32Min) || (d == South && y == I32Max)
              || (d == East && x == I32Max) || (d == West && x == I32Min)
    ensures r.Err? ==> r.panic == ArithmeticOverflow
    ensures r.Ok? ==> Adjacent(Point(x, y), r.value)
    ensures r.Ok? && d == North ==> r.value.x == x && r.value.y == y - 1
    ensures r.Ok? && d == South ==> r.value.x == x && r.value.y == y + 1
    ensures r.Ok? && d == East ==> r.value.x == x + 1 && r.value.y == y
    ensures r.Ok? && d == West ==> r.value.x == x - 1 && r.value.y == y
  {
    match d
    case North => if y == I32Min then Err(ArithmeticOverflow) else Ok(Point(x, y - 1))
    case South => if y == I32Max then Err(ArithmeticOverflow) else Ok(Point(x, y + 1))
    case East => if x == I32Max then Err(ArithmeticOverflow) else Ok(Point(x + 1, y))
    case West => if x == I32Min then Err(ArithmeticOverflow) else Ok(Point(x - 1, y))
  }

  /** A step followed by the opposite step returns to the starting point. */
  lemma StepThenBack(p: Point, d: Direction)
    requires GetDirection(p.x, p.y, d).Ok?
    ensures var q := GetDirection(p.x, p.y, d).value;
            GetDirection(q.x, q.y, Opposite(d)) == Ok(p)
  {
  }

  /** Different directions lead to different points. */
  lemma DirectionsDistinct(p: Point, d: Direction, e: Direction)
    requires GetDirection(p.x, p.y, d).Ok? && GetDirection(p.x, p.y, e).Ok?
    requires d != e
    ensures GetDirection(p.x, p.y, d).value != GetDirection(p.x, p.y, e).value
  {
  }

  /** Every adjacent point is reached by a step in some direction. */
  lemma AdjacentIsStep(p: Point, q: Point)
    requires Adjacent(p, q)
    ensures exists d: Direction :: GetDirection(p.x, p.y, d) == Ok(q)
  {
    if q.y == p.y - 1 {
      assert GetDirection(p.x, p.y, North) == Ok(q);
    } else if q.y == p.y + 1 {
      assert GetDirection(p.x, p.y, South) == Ok(q);
    } else if q.x == p.x + 1 {
      assert GetDirection(p.x, p.y, East) == Ok(q);
    } else {
      assert GetDirection(p.x, p.y, West) == Ok(q);
    }
  }
}
