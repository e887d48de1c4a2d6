/** The tile of the map: whether it stops movement and whether it stops sight. */
module Tiles {

  datatype Tile = Tile(blocked: bool, blockSight: bool)

  /** A floor tile: passable and transparent. */
  function Empty(): (t: Tile)
    ensures !t.blocked && !t.blockSight
  {
    Tile(false, false)
  }

  /** A wall tile: impassable and opaque. */
  function Wall(): (t: Tile)
    ensures t.blocked && t.blockSight
  {
    Tile(true, true)
  }

  /** One of the two tile states the program ever creates. */
  predicate Canonical(t: Tile) {
    t == Empty() || t == Wall()
  }

  /** The canonical tiles are exactly those that block sight when, and only
      when, they block movement; and the two are different tiles. */
  lemma CanonicalTiles(t: Tile)
    ensures Canonical(t) <==> (t.blocked <==> t.blockSight)
    ensures Empty() != Wall()
  {
  }
}
