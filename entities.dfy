/**
 * What every level object shares: a pixel position, the coordinate-only
 * collision and overlap tests, and the movement step of moving objects
 * (MovingObject.update), which keeps the grid-alignment flag and the grid
 * cell in step with the pixel position.
 */
module Entities {
  import opened Grid

  function Abs(n: int): nat {
    if n < 0 then -n else n
  }

  /** Object.collides: the two objects at least touch, corners included. */
  predicate Collides(ax: int, ay: int, ox: int, oy: int): (r: bool)
    ensures r <==> ax - Size <= ox <= ax + Size && ay - Size <= oy <= ay + Size
  {
    Abs(ox - ax) <= Size && Abs(oy - ay) <= Size
  }

  /** Object.overlaps: the two objects cover each other completely. */
  predicate Overlaps(ax: int, ay: int, ox: int, oy: int): (r: bool)
    ensures r ==> Collides(ax, ay, ox, oy)
    ensures r <==> (ox, oy) == (ax, ay)
  {
    ox == ax && oy == ay
  }

  lemma CollidesSymmetric(ax: int, ay: int, ox: int, oy: int)
    ensures Collides(ax, ay, ox, oy) <==> Collides(ox, oy, ax, ay)
  {
  }

  /** Objects one cell apart diagonally still collide; one pixel further they do not. */
  lemma CollidesCornerInclusive(ax: int, ay: int)
    ensures Collides(ax, ay, ax + Size, ay + Size)
    ensures !Collides(ax, ay, ax + Size + 1, ay)
  {
  }

  lemma OverlapsImpliesCollides(ax: int, ay: int, ox: int, oy: int)
    ensures Overlaps(ax, ay, ox, oy) <==> Overlaps(ox, oy, ax, ay)
    ensures Overlaps(ax, ay, ox, oy) ==> Collides(ax, ay, ox, oy)
  {
  }

  /**
   * The state of a moving object: pixel position, whether it sits exactly
   * on a cell, the cell it last sat on, direction, speed and the direction
   * its image shows.
   */
  datatype Motion = Motion(x: int, y: int, inPlace: bool, mapPosition: Cell,
                           direction: int, speed: int, orientation: int)

  /** The alignment flag and the cell agree with the pixel position. */
  predicate Aligned(m: Motion) {
    && (m.inPlace <==> m.x % Size == 0 && m.y % Size == 0)
    && (m.inPlace ==> m.mapPosition == (m.x / Size, m.y / Size))
  }

  /** A moving object as it is created on cell `c`, facing up. */
  function Spawned(c: Cell, direction: int): Motion {
    Motion(c.0 * Size, c.1 * Size, true, c, direction, Speed, Up)
  }

  /** MovingObject.update: one step of `speed` pixels in the current direction. */
  function Moved(m: Motion): Motion
    requires ValidDirection(m.direction)
  {
    var x := m.x + Directions[m.direction].0 * m.speed;
    var y := m.y + Directions[m.direction].1 * m.speed;
    var inPlace := x % Size == 0 && y % Size == 0;
    m.(x := x, y := y, inPlace := inPlace,
       mapPosition := if inPlace then (x / Size, y / Size) else m.mapPosition,
       // the image turns only for the four movement directions
       orientation := if m.direction < Stay then m.direction else m.orientation)
  }

  /** `k` steps. */
  function Run(m: Motion, k: nat): (r: Motion)
    requires ValidDirection(m.direction)
    ensures r.direction == m.direction && r.speed == m.speed
  {
    if k == 0 then m else Moved(Run(m, k - 1))
  }

  lemma SpawnedAligned(c: Cell, direction: int)
    ensures Aligned(Spawned(c, direction))
  {
    assert (c.0 * Size) % Size == 0 && (c.1 * Size) % Size == 0;
    assert (c.0 * Size) / Size == c.0 && (c.1 * Size) / Size == c.1;
  }

  /**
   * A step recomputes alignment from the new position, moves the cell only
   * when the object lands on one, and turns the image only for a movement
   * direction.
   */
  lemma MovedKeepsAligned(m: Motion)
    requires ValidDirection(m.direction)
    ensures Aligned(Moved(m))
    ensures Moved(m).x == m.x + Directions[m.direction].0 * m.speed
    ensures Moved(m).y == m.y + Directions[m.direction].1 * m.speed
    ensures !Moved(m).inPlace ==> Moved(m).mapPosition == m.mapPosition
    ensures m.direction < Stay ==> Moved(m).orientation == m.direction
    ensures m.direction == Stay ==> Moved(m).orientation == m.orientation
    ensures Moved(m).direction == m.direction && Moved(m).speed == m.speed
  {
  }

  /** After `k` steps the object has travelled `k` times its step vector. */
  lemma {:induction false} RunDistance(m: Motion, k: nat)
    requires ValidDirection(m.direction)
    ensures var (sx, sy) := (Directions[m.direction].0 * m.speed, Directions[m.direction].1 * m.speed);
            Run(m, k).x == m.x + k * sx && Run(m, k).y == m.y + k * sy
  {
    if k > 0 {
      RunDistance(m, k - 1);
      var sx := Directions[m.direction].0 * m.speed;
      var sy := Directions[m.direction].1 * m.speed;
      assert k * sx == (k - 1) * sx + sx;
      assert k * sy == (k - 1) * sy + sy;
    }
  }

  /** Between cells, an offset of fewer than Size pixels from a cell corner. */
  lemma OffCell(a: int, t: int)
    requires 0 < t < Size
    ensures (a * Size + t) % Size != 0 && (a * Size - t) % Size != 0
  {
    assert a * Size + t == a * Size + t;
    assert (a * Size + t) % Size == t;
    assert (a * Size - t) == (a - 1) * Size + (Size - t);
    assert (a * Size - t) % Size == Size - t;
  }

  /** A pixel coordinate `k` steps of `s` pixels from cell `a`. */
  lemma OnCellAfter(a: int, dir: int, k: nat, s: int, n: int)
    requires dir in {-1, 0, 1} && 0 < s && n * s == Size && 0 < k <= n
    ensures k < n ==> dir != 0 ==> (a * Size + k * (dir * s)) % Size != 0
    ensures k == n ==> (a * Size + k * (dir * s)) % Size == 0
    ensures k == n ==> (a * Size + k * (dir * s)) / Size == a + dir
  {
    assert k * (dir * s) == dir * (k * s);
    if k < n {
      assert k * s < n * s;
      if dir == 1 {
        OffCell(a, k * s);
      } else if dir == -1 {
        OffCell(a, k * s);
      }
    } else {
      assert a * Size + k * (dir * s) == (a + dir) * Size;
    }
  }

  /**
   * A speed that divides the cell size makes straight runs land on cells
   * exactly: from a cell, the object is between cells for the next
   * Size / speed - 1 steps (its cell unchanged) and then sits on the
   * neighbouring cell in its direction.
   */
  lemma {:induction false} StraightRun(m: Motion, k: nat)
    requires Aligned(m) && m.inPlace && 0 <= m.direction < Stay
    requires 0 < m.speed && Size % m.speed == 0
    requires 0 < k <= Size / m.speed
    ensures k < Size / m.speed ==> !Run(m, k).inPlace && Run(m, k).mapPosition == m.mapPosition
    ensures k == Size / m.speed ==> Run(m, k).inPlace && Run(m, k).mapPosition == Target(m.mapPosition, m.direction)
  {
    var n := Size / m.speed;
    assert n * m.speed == Size;
    var d := Directions[m.direction];
    assert d.0 in {-1, 0, 1} && d.1 in {-1, 0, 1} && (d.0 != 0 || d.1 != 0);
    var (a, b) := m.mapPosition;
    assert m.x == a * Size && m.y == b * Size;
    RunDistance(m, k);
    OnCellAfter(a, d.0, k, m.speed, n);
    OnCellAfter(b, d.1, k, m.speed, n);
    if k > 1 {
      StraightRun(m, k - 1);
    }
  }

  /** MovingObject: the movement state of a player or a watcher, updated in place. */
  class Mover {
    var x: int
    var y: int
    var inPlace: bool
    var mapPosition: Cell
    var direction: int
    var speed: int
    var orientation: int

    function State(): Motion
      reads this
    {
      Motion(x, y, inPlace, mapPosition, direction, speed, orientation)
    }

    constructor (position: Cell, direction: int)
      ensures State() == Spawned(position, direction)
    {
      x, y := position.0 * Size, position.1 * Size;
      inPlace := true;
      mapPosition := position;
      this.direction := direction;
      speed := Speed;
      orientation := Up;
    }

    /** MovingObject.update. */
    method Update()
      requires ValidDirection(direction)
      modifies this
      ensures State() == Moved(old(State()))
    {
      x := x + Directions[direction].0 * speed;
      y := y + Directions[direction].1 * speed;
      inPlace := x % Size == 0 && y % Size == 0;
      if inPlace {
        mapPosition := (x / Size, y / Size);
      }
      if direction < Stay {
        orientation := direction;
      }
    }
  }
}
