/** Objects on the map and the movement rule: a step commits only when its
    target passes the bounds test and is not blocked. */
module Movement {
  import opened Panics
  import opened Tiles
  import opened Grid
  import opened Geometry

  /** 2^64: `as usize` on a 64-bit target reduces modulo this. */
  const UsizeModulus: int := 0x1_0000_0000_0000_0000

  /** The cast `v as usize`: a negative i32 is sign-extended, so it wraps to
      a value near 2^64. */
  function AsUsize(v: Int32): (u: nat)
    ensures u < UsizeModulus
    ensures u % UsizeModulus == v % UsizeModulus
    ensures v >= 0 ==> u == v
    ensures v < 0 ==> u >= UsizeModulus + I32Min
  {
    if v >= 0 then v else UsizeModulus + v
  }

  /** The bounds test as the program writes it: only the upper bounds. */
  function OutOfBounds(p: Point): (r: bool)
    ensures !r <==> p.x < MapWidth && p.y < MapHeight
  {
    if p.x < MapWidth && p.y < MapHeight then false else true
  }

  /** `p` names a tile of a well-formed map. */
  predicate InBounds(p: Point) {
    0 <= p.x < MapWidth && 0 <= p.y < MapHeight
  }

  /** `p` names a passable tile of the well-formed map `m`. */
  predicate OnFreeTile(p: Point, m: Map)
    requires WellFormed(m)
  {
    InBounds(p) && !m[p.x][p.y].blocked
  }

  /** The lookup `m[p.x as usize][p.y as usize]`, which panics when either
      index is past its `Vec`. */
  function TileAt(m: Map, p: Point): (r: Result<Tile>)
    ensures r.Err? ==> r.panic == IndexOutOfBounds
    ensures r.Ok? <==> AsUsize(p.x) < |m| && AsUsize(p.y) < |m[AsUsize(p.x)]|
    ensures r.Ok? ==> r.value == m[AsUsize(p.x)][AsUsize(p.y)]
  {
    var i := AsUsize(p.x);
    if i < |m| then
      var j := AsUsize(p.y);
      if j < |m[i]| then Ok(m[i][j]) else Err(IndexOutOfBounds)
    else
      Err(IndexOutOfBounds)
  }

  /** `can_move`: false when the bounds test fails; otherwise whether the
      tile is unblocked, reading it through the unchecked casts. */
  function CanMove(pos: Point, m: Map): (r: Result<bool>)
    ensures r.Err? ==> r.panic == IndexOutOfBounds
    ensures OutOfBounds(pos) ==> r == Ok(false)
    ensures r == Ok(true) ==>
              && !OutOfBounds(pos)
              && AsUsize(pos.x) < |m| && AsUsize(pos.y) < |m[AsUsize(pos.x)]|
              && !m[AsUsize(pos.x)][AsUsize(pos.y)].blocked
    ensures WellFormed(m) ==> (r.Err? <==> !OutOfBounds(pos) && (pos.x < 0 || pos.y < 0))
    ensures WellFormed(m) ==> (r == Ok(true) <==> OnFreeTile(pos, m))
  {
    if !OutOfBounds(pos) then
      var t :- TileAt(m, pos);
      Ok(!t.blocked)
    else
      Ok(false)
  }

  /** An 8-bit-per-channel colour; movement never reads it. */
  type Byte = v: int | 0 <= v < 256
  datatype Color = Color(r: Byte, g: Byte, b: Byte)

  datatype Object = Object(character: char, position: Point, color: Color)

  /** `move_d`: step in direction `d` when `can_move` allows it, otherwise
      stay. A panic in either the step or the lookup is passed on. */
  function MoveD(o: Object, d: Direction, m: Map): (r: Result<Object>)
    ensures r.Ok? ==> r.value.character == o.character && r.value.color == o.color
    ensures r.Ok? ==> GetDirection(o.position.x, o.position.y, d).Ok?
    ensures r.Ok? ==>
              var target := GetDirection(o.position.x, o.position.y, d).value;
              && (r.value.position == o.position || r.value.position == target)
              && (r.value.position == target <==> CanMove(target, m) == Ok(true))
    ensures r.Err? <==>
              || GetDirection(o.position.x, o.position.y, d).Err?
              || CanMove(GetDirection(o.position.x, o.position.y, d).value, m).Err?
  {
    var target :- GetDirection(o.position.x, o.position.y, d);
    var allowed :- CanMove(target, m);
    Ok(if allowed then o.(position := target) else o)
  }

  /** An object standing on a free tile of a well-formed map stays on a free
      tile after a move; the move panics exactly when it heads west from
      column 0 or north from row 0. */
  lemma MovePreservesFreeTile(o: Object, d: Direction, m: Map)
    requires WellFormed(m) && OnFreeTile(o.position, m)
    ensures MoveD(o, d, m).Ok? ==> OnFreeTile(MoveD(o, d, m).value.position, m)
    ensures MoveD(o, d, m).Err? <==>
              (d == West && o.position.x == 0) || (d == North && o.position.y == 0)
  {
    var t := GetDirection(o.position.x, o.position.y, d);
    assert t.Ok?;
    var c := CanMove(t.value, m);
    assert c.Err? <==> t.value.x < 0 || t.value.y < 0;
  }

  /** The bounds test lets the point (-1, 0) through, and `can_move` then
      panics on the built map instead of answering false. */
  lemma NegativeTargetPanics()
    ensures !OutOfBounds(Point(-1, 0)) && !InBounds(Point(-1, 0))
    ensures CanMove(Point(-1, 0), MakeMap()) == Err(IndexOutOfBounds)
  {
  }

  /** The bounds test with the missing lower bounds added. */
  function OutOfBoundsChecked(p: Point): (r: bool)
    ensures r <==> !InBounds(p)
    ensures !r ==> !OutOfBounds(p)
  {
    p.x < 0 || p.y < 0 || !(p.x < MapWidth && p.y < MapHeight)
  }

  /** `can_move` over the corrected bounds test: it never indexes outside
      a well-formed map. */
  function CanMoveChecked(pos: Point, m: Map): (r: bool)
    requires WellFormed(m)
    ensures r <==> OnFreeTile(pos, m)
  {
    if OutOfBoundsChecked(pos) then false else !m[pos.x][pos.y].blocked
  }

  /** `move_d` over the corrected test: from a free tile it never panics and
      always lands on a free tile. */
  function MoveChecked(o: Object, d: Direction, m: Map): (r: Object)
    requires WellFormed(m) && OnFreeTile(o.position, m)
    ensures r.character == o.character && r.color == o.color
    ensures OnFreeTile(r.position, m)
    ensures r.position == o.position || Adjacent(o.position, r.position)
    ensures var t := GetDirection(o.position.x, o.position.y, d);
            r.position != o.position <==> t.Ok? && OnFreeTile(t.value, m)
    ensures var t := GetDirection(o.position.x, o.position.y, d);
            r.position != o.position ==> r.position == t.value
  {
    var target := GetDirection(o.position.x, o.position.y, d);
    if target.Ok? && CanMoveChecked(target.value, m) then o.(position := target.value) else o
  }

  /** Wherever the program's move does not panic it agrees with the
      corrected one; where it panics the corrected one stays put. */
  lemma MoveCheckedAgrees(o: Object, d: Direction, m: Map)
    requires WellFormed(m) && OnFreeTile(o.position, m)
    ensures MoveD(o, d, m).Ok? ==> MoveD(o, d, m).value == MoveChecked(o, d, m)
    ensures MoveD(o, d, m).Err? ==> MoveChecked(o, d, m) == o
  {
    MovePreservesFreeTile(o, d, m);
    var t := GetDirection(o.position.x, o.position.y, d);
    if MoveD(o, d, m).Err? {
      assert !InBounds(t.value);
    }
  }
}
