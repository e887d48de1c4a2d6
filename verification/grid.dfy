/** The map: a column-major grid of tiles, `m[x][y]`, and the fixed map the
    program builds. */
module Grid {
  import opened Tiles

  const MapWidth: int := 80
  const MapHeight: int := 45

  /** A `Vec<Vec<Tile>>`: the outer sequence holds the columns. */
  type Map = seq<seq<Tile>>

  /** The map has `MapWidth` columns of `MapHeight` tiles each. */
  predicate WellFormed(m: Map) {
    |m| == MapWidth && forall x :: 0 <= x < |m| ==> |m[x]| == MapHeight
  }

  /** `width` columns of `height` copies of `t`, as the nested `vec!` builds. */
  function Filled(width: nat, height: nat, t: Tile): (m: Map)
    ensures |m| == width
    ensures forall x :: 0 <= x < width ==> |m[x]| == height
    ensures forall x, y :: 0 <= x < width && 0 <= y < height ==> m[x][y] == t
  {
    seq(width, _ => seq(height, _ => t))
  }

  /** The assignment `m[x][y] = t`: one tile replaced, the shape kept. */
  function SetTile(m: Map, x: nat, y: nat, t: Tile): (r: Map)
    requires x < |m| && y < |m[x]|
    ensures |r| == |m|
    ensures forall i :: 0 <= i < |m| ==> |r[i]| == |m[i]|
    ensures forall i, j :: 0 <= i < |m| && 0 <= j < |m[i]| ==>
              r[i][j] == (if i == x && j == y then t else m[i][j])
  {
    m[x := m[x][y := t]]
  }

  /** The two places `make_map` puts a wall. */
  predicate IsPresetWall(x: int, y: int) {
    (x == 30 && y == 22) || (x == 50 && y == 22)
  }

  /** An all-floor map with walls at (30, 22) and (50, 22). */
  function MakeMap(): (m: Map)
    ensures WellFormed(m)
    ensures forall x, y :: 0 <= x < MapWidth && 0 <= y < MapHeight ==>
              (m[x][y] == Wall() <==> IsPresetWall(x, y))
    ensures forall x, y :: 0 <= x < MapWidth && 0 <= y < MapHeight ==>
              (m[x][y] == Empty() <==> !IsPresetWall(x, y))
  {
    var floor := Filled(MapWidth, MapHeight, Empty());
    SetTile(SetTile(floor, 30, 22, Wall()), 50, 22, Wall())
  }

  /** The blocked tiles of the built map are exactly the two preset walls. */
  lemma MakeMapBlocked()
    ensures (set x: int, y: int | 0 <= x < MapWidth && 0 <= y < MapHeight && MakeMap()[x][y].blocked :: (x, y))
            == {(30, 22), (50, 22)}
  {
    var m: Map := MakeMap();
    var s := set x: int, y: int | 0 <= x < MapWidth && 0 <= y < MapHeight && m[x][y].blocked :: (x, y);
    assert m[30][22] == Wall() && m[50][22] == Wall();
    assert (30, 22) in s && (50, 22) in s;
    forall c | c in s
      ensures c == (30, 22) || c == (50, 22)
    {
      var x: int, y: int :| 0 <= x < MapWidth && 0 <= y < MapHeight && m[x][y].blocked && c == (x, y);
      assert IsPresetWall(x, y);
    }
  }
}
