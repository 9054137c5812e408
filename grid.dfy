/**
 * The grid and movement model shared by every part of the game: the window
 * size in cells, the pixel size of a cell, the direction table, the frame
 * clock's delays and the passability rule of a level map.
 */
module Grid {

  /** The window is 32 cells wide and 24 cells high. */
  const GridWidth: int := 32
  const GridHeight: int := 24

  /** Every object is one cell wide; positions are in pixels. */
  const Size: int := 20

  /** Pixels per frame of an ordinary moving object. */
  const Speed: int := 2

  /** Direction indices into the direction table. */
  const Up: int := 0
  const Right: int := 1
  const Down: int := 2
  const Left: int := 3
  const Stay: int := 4

  /** The shared direction table: a unit step per direction, and none for Stay. */
  const Directions: seq<(int, int)> := [(0, 1), (1, 0), (0, -1), (-1, 0), (0, 0)]

  /**
   * The game advances one frame every 1/120 s, and the delays of the
   * one-shot callbacks are counted in frames.
   */
  const FramesPerSecond: int := 120
  const InvincibleDelay: int := FramesPerSecond          // 1.0 s after a bump
  const BellInvincibleDelay: int := 3 * FramesPerSecond  // 3.0 s after ringing the bell
  const RingingDelay: int := 3 * FramesPerSecond         // 3.0 s of bell animation
  const CompletionDelay: int := FramesPerSecond          // 1.0 s from winning to the menu

  /** A cell of the grid as (column, row); row 0 is the bottom row. */
  type Cell = (int, int)

  /** A level map: rows from the bottom up, `map[y][x]` is the symbol of cell (x, y). */
  type Map = seq<seq<char>>

  predicate ValidDirection(d: int) {
    0 <= d < |Directions|
  }

  /** A map padded to the full window. */
  predicate WellFormed(m: Map) {
    |m| == GridHeight && forall y :: 0 <= y < |m| ==> |m[y]| == GridWidth
  }

  predicate InGrid(c: Cell) {
    0 <= c.0 < GridWidth && 0 <= c.1 < GridHeight
  }

  /** The cell one step from `c` in direction `d` (`c` itself for Stay). */
  function Target(c: Cell, d: int): Cell
    requires ValidDirection(d)
  {
    (c.0 + Directions[d].0, c.1 + Directions[d].1)
  }

  /** Walls and padding dots always block; the gate blocks only without the key. */
  predicate Blocks(symbol: char, hasKey: bool) {
    symbol in (if hasKey then "X." else "X./")
  }

  /** Level.is_forbidden: whether a move from `position` in direction `d` is not allowed. */
  predicate IsForbidden(m: Map, position: Cell, d: int, hasKey: bool): (r: bool)
    requires WellFormed(m) && ValidDirection(d)
    ensures !InGrid(Target(position, d)) ==> r
    ensures InGrid(Target(position, d)) ==>
              var s := m[Target(position, d).1][Target(position, d).0];
              (r <==> s == 'X' || s == '.' || (s == '/' && !hasKey))
  {
    var t := Target(position, d);
    !InGrid(t) || Blocks(m[t.1][t.0], hasKey)
  }

  /** Opposite movement directions are two apart, and Stay does not move. */
  lemma OppositeDirections(d: int)
    requires 0 <= d < 4
    ensures Directions[(d + 2) % 4] == (-Directions[d].0, -Directions[d].1)
    ensures Directions[Stay] == (0, 0)
  {
  }

  /** Leaving the grid is always forbidden, whatever the map says. */
  lemma OutsideIsForbidden(m: Map, position: Cell, d: int, hasKey: bool)
    requires WellFormed(m) && ValidDirection(d) && !InGrid(Target(position, d))
    ensures IsForbidden(m, position, d, hasKey)
  {
  }

  /**
   * Holding the key is never stricter than not holding it, and the only cell
   * the key opens is the gate.
   */
  lemma KeyNeverStricter(m: Map, position: Cell, d: int)
    requires WellFormed(m) && ValidDirection(d)
    ensures IsForbidden(m, position, d, true) ==> IsForbidden(m, position, d, false)
    ensures IsForbidden(m, position, d, false) && !IsForbidden(m, position, d, true)
            <==> InGrid(Target(position, d)) && m[Target(position, d).1][Target(position, d).0] == '/'
  {
  }

  /** With Stay the rule looks at the object's own cell. */
  lemma StayChecksOwnCell(m: Map, position: Cell, hasKey: bool)
    requires WellFormed(m)
    ensures IsForbidden(m, position, Stay, hasKey)
            <==> !InGrid(position) || Blocks(m[position.1][position.0], hasKey)
  {
  }
}
