/** Key dispatch for the player and the objects the program starts with. A
    key press is an abstract value: its code and whether Alt was held. */
module Input {
  import opened Panics
  import opened Tiles
  import opened Grid
  import opened Geometry
  import opened Movement

  const ScreenWidth: int := 80
  const ScreenHeight: int := 50

  const White: Color := Color(255, 255, 255)
  const Yellow: Color := Color(255, 255, 0)

  /** The player, '@' in white at the centre of the screen. */
  function StartPlayer(): (o: Object)
    ensures o.position == Point(40, 25)
  {
    Object('@', Point(ScreenWidth / 2, ScreenHeight / 2), White)
  }

  /** The second object, five columns left of the player. */
  function StartNpc(): (o: Object)
    ensures o.position == Point(35, 25)
  {
    Object('@', Point(ScreenWidth / 2 - 5, ScreenHeight / 2), Yellow)
  }

  /** Both objects start on free tiles of the built map. */
  lemma StartPositionsFree()
    ensures OnFreeTile(StartPlayer().position, MakeMap())
    ensures OnFreeTile(StartNpc().position, MakeMap())
  {
    var m: Map := MakeMap();
    assert m[40][25] == Empty() && m[35][25] == Empty();
  }

  /** The key codes the dispatch tells apart; every other code is `Other`. */
  datatype KeyCode = Enter | Escape | Up | Down | Left | Right | Other

  datatype Key = Key(code: KeyCode, alt: bool)

  /** What one key press did: whether to leave the loop, the player after
      the press, and whether the fullscreen mode is to be flipped. */
  datatype Response = Response(exit: bool, player: Object, toggleFullscreen: bool)

  predicate IsArrow(c: KeyCode) {
    c == Up || c == Down || c == Left || c == Right
  }

  /** The direction an arrow key moves the player. */
  function ArrowDirection(c: KeyCode): (d: Direction)
    requires IsArrow(c)
    ensures c == Up ==> d == North
    ensures c == Down ==> d == South
    ensures c == Left ==> d == West
    ensures c == Right ==> d == East
    ensures (d == North || d == South) <==> (c == Up || c == Down)
  {
    match c
    case Up => North
    case Down => South
    case Left => West
    case Right => East
  }

  /** `handle_keys` after the key has been read: Alt+Enter flips fullscreen,
      Escape asks to exit, an arrow moves the player, anything else does
      nothing. Only Escape ever asks to exit. */
  function HandleKeys(key: Key, player: Object, m: Map): (r: Result<Response>)
    ensures key.code == Escape <==> r.Ok? && r.value.exit
    ensures r.Ok? ==> (r.value.toggleFullscreen <==> key.code == Enter && key.alt)
    ensures !IsArrow(key.code) ==> r.Ok? && r.value.player == player
    ensures IsArrow(key.code) ==> (r.Err? <==> MoveD(player, ArrowDirection(key.code), m).Err?)
    ensures IsArrow(key.code) && r.Ok? ==>
              r.value.player == MoveD(player, ArrowDirection(key.code), m).value
  {
    if IsArrow(key.code) then
      var moved :- MoveD(player, ArrowDirection(key.code), m);
      Ok(Response(false, moved, false))
    else if key.code == Enter && key.alt then
      Ok(Response(false, player, true))
    else if key.code == Escape then
      Ok(Response(true, player, false))
    else
      Ok(Response(false, player, false))
  }

  /** The player's side of the event loop over a finite run of key presses:
      each press is handled in turn until one asks to exit or panics. */
  function Play(keys: seq<Key>, player: Object, m: Map): (r: Result<Object>)
    ensures r.Ok? ==> r.value.character == player.character && r.value.color == player.color
    ensures (forall i :: 0 <= i < |keys| ==> !IsArrow(keys[i].code)) ==> r == Ok(player)
    decreases |keys|
  {
    if |keys| == 0 then
      Ok(player)
    else
      var response :- HandleKeys(keys[0], player, m);
      if response.exit then Ok(response.player) else Play(keys[1..], response.player, m)
  }

  /** However many keys are pressed, a player who starts on a free tile of a
      well-formed map ends on one, unless the run panics. */
  lemma {:induction false} PlayPreservesFreeTile(keys: seq<Key>, player: Object, m: Map)
    requires WellFormed(m) && OnFreeTile(player.position, m)
    ensures Play(keys, player, m).Ok? ==> OnFreeTile(Play(keys, player, m).value.position, m)
    decreases |keys|
  {
    if |keys| > 0 {
      if IsArrow(keys[0].code) {
        MovePreservesFreeTile(player, ArrowDirection(keys[0].code), m);
      }
      match HandleKeys(keys[0], player, m)
      case Err(_) =>
      case Ok(response) =>
        if !response.exit {
          PlayPreservesFreeTile(keys[1..], response.player, m);
        }
    }
  }

  /** `n` presses of the left arrow. */
  function Lefts(n: nat): (keys: seq<Key>)
    ensures |keys| == n
    ensures forall i :: 0 <= i < n ==> keys[i] == Key(Left, false)
  {
    seq(n, _ => Key(Left, false))
  }

  /** The tiles from column 0 to the object's column, in its row, are free. */
  predicate ClearToWestEdge(o: Object, m: Map)
    requires WellFormed(m) && InBounds(o.position)
  {
    forall x :: 0 <= x <= o.position.x ==> !m[x][o.position.y].blocked
  }

  /** With a free row to its west, `n <= x` left presses walk the player `n`
      columns west. */
  lemma {:induction false} WalkWest(o: Object, m: Map, n: nat)
    requires WellFormed(m) && InBounds(o.position) && ClearToWestEdge(o, m)
    requires n <= o.position.x
    ensures Play(Lefts(n), o, m) == Ok(o.(position := Point(o.position.x - n, o.position.y)))
    decreases n
  {
    if n > 0 {
      var next := o.(position := Point(o.position.x - 1, o.position.y));
      assert MoveD(o, West, m) == Ok(next);
      assert Lefts(n)[1..] == Lefts(n - 1);
      WalkWest(next, m, n - 1);
    }
  }

  /** With a free row to its west, one left press more than the player's
      column panics: the bounds test lets column -1 through. */
  lemma {:induction false} WalkOffWestEdge(o: Object, m: Map)
    requires WellFormed(m) && InBounds(o.position) && ClearToWestEdge(o, m)
    ensures Play(Lefts(o.position.x + 1), o, m) == Err(IndexOutOfBounds)
    decreases o.position.x
  {
    assert Lefts(o.position.x + 1)[1..] == Lefts(o.position.x);
    if o.position.x == 0 {
      assert CanMove(Point(-1, o.position.y), m) == Err(IndexOutOfBounds);
    } else {
      var next := o.(position := Point(o.position.x - 1, o.position.y));
      assert MoveD(o, West, m) == Ok(next);
      WalkOffWestEdge(next, m);
    }
  }

  /** On the built map, forty left presses take the player to column 0 and
      the forty-first panics. */
  lemma WestEdgePanics()
    ensures Play(Lefts(40), StartPlayer(), MakeMap()) == Ok(StartPlayer().(position := Point(0, 25)))
    ensures Play(Lefts(41), StartPlayer(), MakeMap()) == Err(IndexOutOfBounds)
  {
    var m: Map := MakeMap();
    var o := StartPlayer();
    forall x | 0 <= x <= o.position.x
      ensures !m[x][o.position.y].blocked
    {
      assert m[x][25] == Empty();
    }
    WalkWest(o, m, 40);
    WalkOffWestEdge(o, m);
  }
}
