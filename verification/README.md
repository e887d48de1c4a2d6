# Movement core of a tcod roguelike, in Dafny

This project models the game logic of `src/main.rs` in a small Rust/libtcod
roguelike. It covers the tile model, the fixed 80 × 45 map, the one-step
direction offsets, the bounds test and the movement rule of `Object`, and
the key dispatch of `handle_keys`. Rendering and the window are not modelled.

The map is column-major: `m[x][y]`, a sequence of `MapWidth` columns holding
`MapHeight` tiles each. Coordinates are Rust `i32` values (`Geometry.Int32`).
A panic of a debug build is a value here, not a precondition:

- `Err(ArithmeticOverflow)` stands for an `i32` step past the end of the range.
- `Err(IndexOutOfBounds)` stands for a `Vec` indexed past its length.

The cast `as usize` is modelled as sign extension on a 64-bit target, so a
negative coordinate turns into an index near 2^64.

Modules, leaves first:

- `Panics` holds the panic kinds and the `Result` type.
- `Tiles` holds the tile and its two canonical states.
- `Geometry` holds `i32` points, directions and `get_direction`.
- `Grid` holds the map shape and `make_map`.
- `Movement` holds `out_of_bounds`, `can_move`, `move_d`, and the corrected
  bounds test with the move built on it.
- `Input` holds the start objects, `handle_keys`, and the player's side of the
  event loop over a finite run of key presses.

`src/main.rs` has no dungeon generator: its map is a fixed floor with two
walls, and a tile has only `blocked` and `block_sight`.

## Model

| member | source | states |
|---|---|---|
| `Tiles.Empty` | src/main.rs:76-78 | the floor tile blocks neither movement nor sight |
| `Tiles.Wall` | src/main.rs:80-82 | the wall tile blocks both movement and sight |
| `Tiles.CanonicalTiles` | src/main.rs:69-83 | a tile is one of the two canonical states exactly when it blocks sight if and only if it blocks movement; floor and wall differ |
| `Geometry.GetDirection` | src/main.rs:157-165 | the target differs from (x, y) in exactly one coordinate, by exactly one: north is y − 1, south y + 1, east x + 1, west x − 1; it panics with an overflow exactly when that coordinate is at the end of the i32 range |
| `Geometry.StepThenBack` | src/main.rs:157-165 | a step followed by a step in the opposite direction returns to the start |
| `Geometry.DirectionsDistinct` | src/main.rs:157-165 | two different directions from the same point give two different targets |
| `Geometry.AdjacentIsStep` | src/main.rs:157-165 | every point adjacent to p is the target of some direction from p |
| `Grid.Filled` | src/main.rs:169 | the nested `vec!` gives `width` columns of `height` copies of the tile |
| `Grid.SetTile` | src/main.rs:170-171 | assigning one tile changes only that tile and keeps the map's shape |
| `Grid.MakeMap` | src/main.rs:167-174 | the map has 80 columns of 45 tiles; a tile is a wall if and only if it is (30, 22) or (50, 22), and every other tile is floor |
| `Grid.MakeMapBlocked` | src/main.rs:167-174 | the set of blocked coordinates of the built map is exactly {(30, 22), (50, 22)} |
| `Movement.AsUsize` | src/main.rs:53 | `as usize` keeps a non-negative i32 and wraps a negative one to at least 2^64 − 2^31, agreeing modulo 2^64 |
| `Movement.OutOfBounds` | src/main.rs:176-182 | a point passes the bounds test if and only if x < 80 and y < 45; there is no lower bound |
| `Movement.TileAt` | src/main.rs:53 | the double index succeeds if and only if both cast indices are within their vectors, and it then yields that tile |
| `Movement.CanMove` | src/main.rs:51-59 | a point failing the bounds test gives false; on a well-formed map, the call panics if and only if the point passes the test with a negative coordinate, and it gives true if and only if the point is in range and unblocked |
| `Movement.NegativeTargetPanics` | src/main.rs:51-59 | (−1, 0) passes the bounds test although it is off the map, and `can_move` then panics on the built map |
| `Movement.MoveD` | src/main.rs:43-49 | a move that does not panic keeps the character and colour, and either stays put or moves to the target; it moves exactly when `can_move` allows the target; it panics exactly when the step or the check panics |
| `Movement.MovePreservesFreeTile` | src/main.rs:43-59 | from a free tile of a well-formed map, a move that does not panic ends on a free tile; the move panics exactly when it goes west from column 0 or north from row 0 |
| `Movement.OutOfBoundsChecked` | src/main.rs:176-182 | the corrected bounds test fails exactly for points off the map, and it only admits points the original test admits |
| `Movement.CanMoveChecked` | src/main.rs:51-59 | the corrected check is true if and only if the point is a free tile of the map |
| `Movement.MoveChecked` | src/main.rs:43-49 | the corrected move never panics from a free tile; it keeps character and colour, ends on a free tile, and moves, to the `get_direction` target, exactly when that target exists and is a free tile; otherwise it stays put |
| `Movement.MoveCheckedAgrees` | src/main.rs:43-59 | wherever the program's move does not panic it gives the same object as the corrected move; where it panics, the corrected move stays put |
| `Input.StartPlayer` | src/main.rs:101-102 | the player starts at the centre of the 80 × 50 screen, (40, 25) |
| `Input.StartNpc` | src/main.rs:103 | the second object starts at (35, 25) |
| `Input.StartPositionsFree` | src/main.rs:101-105 | both start positions are free tiles of the built map |
| `Input.ArrowDirection` | src/main.rs:138-149 | up moves north, down south, left west and right east; so up and down are exactly the keys that move along the y axis |
| `Input.HandleKeys` | src/main.rs:122-155 | only Escape asks to exit; the fullscreen flag flips exactly on Alt+Enter; keys other than arrows leave the player unchanged and never panic; an arrow panics exactly when its move panics, and otherwise yields the moved player |
| `Input.Play` | src/main.rs:107-117 | the player's character and colour never change over a run of key presses, and a run with no arrow keys leaves the player as it was |
| `Input.PlayPreservesFreeTile` | src/main.rs:107-117 | a player starting on a free tile of a well-formed map is on a free tile after any run of key presses that does not panic |
| `Input.WalkWest` | src/main.rs:144-146 | with a free row to its west, n left presses, for n up to the player's column, move the player n columns west |
| `Input.WalkOffWestEdge` | src/main.rs:144-146 | with a free row to its west, one more left press than the player's column panics with an index out of bounds |
| `Input.WestEdgePanics` | src/main.rs:101-117 | on the built map, 40 left presses take the player from (40, 25) to (0, 25), and the 41st panics |

## Left out

- Rendering: `Object::draw`, `render_all`, `blit`, the `Root` and `Offscreen` setup, fonts, the frame limit and the two dark colours. This is tcod library I/O with nothing to state.
- Reading keys: `wait_for_keypress` becomes an abstract `Input.Key` of a code and an Alt flag. Codes other than Enter, Escape and the four arrows all become `Other`.
- The fullscreen toggle: `Input.HandleKeys` reports it as a flag in its response. No window state is kept.
- The event loop of `main`: `Input.Play` covers the player's side of it over a finite run of key presses. `window_closed` and the redraw between presses are not modelled, because they are window I/O.
- The second object never receives key presses, so no operation changes it.
- `Geometry.GetDirection` models a debug build, where i32 overflow panics. A release build wraps instead, and that is not modelled. Only points at the end of the i32 range are affected, and `Movement.MovePreservesFreeTile` shows that no object on the map ever reaches them.
- `Movement.AsUsize` assumes a 64-bit target. On a 32-bit target the negative cast wraps modulo 2^32, which is also past the end of any map vector, so the same panic follows.

## Findings

| source | as written | input that shows it | evidently intended | confidence | as-written member | corrected member |
|---|---|---|---|---|---|---|
| src/main.rs:176-182 | the bounds test checks only the upper bounds, so `can_move` casts a negative coordinate to `usize` and indexes past the map (src/main.rs:53) | the player at (40, 25) on the built map presses the left arrow 41 times; the last target is (−1, 25) | a point with a negative coordinate is out of bounds, so the move is refused and the player stays at (0, 25) | high; not executed | `Input.WestEdgePanics` | `Movement.MoveChecked` |

`Movement.MoveCheckedAgrees` links the two halves. The corrected move gives the
same object wherever the program's move does not panic, and it stays put where
the program's move panics. `Input.HandleKeys` and `Input.Play` still model the
program as written.
