/**
 * The enemies. A circular watcher keeps a wall on one side (`side` +1 keeps
 * it on the right turn, -1 on the left); a linear watcher walks straight and
 * turns around at walls. Both decide only when they sit exactly on a cell,
 * and both turn around when they bump into another watcher.
 */
module Watchers {
  import opened Grid
  import opened Entities

  datatype Patrol = Circular(side: int) | Linear

  datatype WatcherState = WatcherState(motion: Motion, patrol: Patrol)

  /** What every reachable watcher satisfies: it always faces a movement direction. */
  predicate WatcherOk(w: WatcherState) {
    0 <= w.motion.direction < Stay && (w.patrol.Circular? ==> w.patrol.side in {-1, 1})
  }

  function SpawnedWatcher(c: Cell, direction: int, patrol: Patrol): WatcherState {
    WatcherState(Spawned(c, direction), patrol)
  }

  /** LinearWatcher.turn_around. */
  function TurnedAround(d: int): int {
    (d + 2) % 4
  }

  /** Which of the four movement directions out of cell `c` are forbidden, by direction index. */
  function Walls(m: Map, c: Cell): (walls: seq<bool>)
    requires WellFormed(m)
    ensures |walls| == 4 && forall e :: 0 <= e < 4 ==> walls[e] == IsForbidden(m, c, e, false)
  {
    [IsForbidden(m, c, Up, false), IsForbidden(m, c, Right, false),
     IsForbidden(m, c, Down, false), IsForbidden(m, c, Left, false)]
  }

  /**
   * The rotation loop of CircularWatcher.update: while the cell ahead is
   * forbidden and fewer than three turns were made, turn away from `side`.
   */
  function RotateAway(walls: seq<bool>, d: int, side: int, i: nat): (r: int)
    requires |walls| == 4 && 0 <= d < Stay && i <= 3
    ensures 0 <= r < Stay
    decreases 3 - i
  {
    if walls[d] && i <= 2 then RotateAway(walls, (d - side) % 4, side, i + 1) else d
  }

  /** The heading a circular watcher takes before its step. */
  function CircularHeading(m: Map, w: Motion, side: int): (r: int)
    requires WellFormed(m) && 0 <= w.direction < Stay
    ensures 0 <= r < Stay
  {
    var walls := Walls(m, w.mapPosition);
    if !w.inPlace then w.direction
    else if !walls[(w.direction + side) % 4] then (w.direction + side) % 4
    else RotateAway(walls, w.direction, side, 0)
  }

  /** The heading a linear watcher takes before its step. */
  function LinearHeading(m: Map, w: Motion): (r: int)
    requires WellFormed(m) && 0 <= w.direction < Stay
    ensures 0 <= r < Stay
  {
    if w.inPlace && IsForbidden(m, w.mapPosition, w.direction, false) then TurnedAround(w.direction) else w.direction
  }

  /** CircularWatcher.update and LinearWatcher.update. */
  function WatcherUpdated(m: Map, w: WatcherState): (r: WatcherState)
    requires WellFormed(m) && 0 <= w.motion.direction < Stay
    // the patrol and the speed stay, the heading stays a movement direction
    ensures r.patrol == w.patrol && r.motion.speed == w.motion.speed && 0 <= r.motion.direction < Stay
    // a watcher turns only on a cell; between cells it just steps on
    ensures !w.motion.inPlace ==> r.motion == Moved(w.motion)
  {
    var d := match w.patrol
      case Circular(side) => CircularHeading(m, w.motion, side)
      case Linear => LinearHeading(m, w.motion);
    w.(motion := Moved(w.motion.(direction := d)))
  }

  /** handle_collision with another watcher at (ox, oy). */
  function WatcherCollided(w: WatcherState, ox: int, oy: int): WatcherState {
    if !Collides(w.motion.x, w.motion.y, ox, oy) then w
    else
      var turned := w.motion.(direction := TurnedAround(w.motion.direction));
      match w.patrol
      case Circular(side) => WatcherState(turned, Circular(-side))
      case Linear => w.(motion := turned)
  }

  /** Every movement direction out of cell `c` is forbidden. */
  predicate Enclosed(m: Map, c: Cell)
    requires WellFormed(m)
  {
    forall e :: 0 <= e < Stay ==> IsForbidden(m, c, e, false)
  }

  /**
   * On a cell, a circular watcher takes its side direction when that is
   * allowed; otherwise it keeps its direction if allowed, or else turns away
   * from the side, at most three times, until the cell ahead is allowed.
   */
  lemma CircularHeadingRule(m: Map, w: Motion, side: int)
    requires WellFormed(m) && 0 <= w.direction < Stay && w.inPlace && side in {-1, 1}
    ensures var c, d := w.mapPosition, w.direction;
            var d1 := (d - side) % 4; var d2 := (d1 - side) % 4; var d3 := (d2 - side) % 4;
            CircularHeading(m, w, side) ==
              if !IsForbidden(m, c, (d + side) % 4, false) then (d + side) % 4
              else if !IsForbidden(m, c, d, false) then d
              else if !IsForbidden(m, c, d1, false) then d1
              else if !IsForbidden(m, c, d2, false) then d2
              else d3
  {
    var walls, d := Walls(m, w.mapPosition), w.direction;
    ThreeTurns(walls, d, side);
    var d1 := (d - side) % 4;
    var d2 := (d1 - side) % 4;
    assert walls[d1] == IsForbidden(m, w.mapPosition, d1, false);
    assert walls[d2] == IsForbidden(m, w.mapPosition, d2, false);
    assert walls[(d2 - side) % 4] == IsForbidden(m, w.mapPosition, (d2 - side) % 4, false);
  }

  /**
   * So a circular watcher heads into a forbidden cell exactly when it is
   * enclosed on all four sides; as the loop stops after three turns it then
   * ends up facing its side, which it found forbidden.
   */
  lemma CircularBlockedOnlyIfEnclosed(m: Map, w: Motion, side: int)
    requires WellFormed(m) && 0 <= w.direction < Stay && w.inPlace && side in {-1, 1}
    ensures var r := CircularHeading(m, w, side);
            && (IsForbidden(m, w.mapPosition, r, false) <==> Enclosed(m, w.mapPosition))
            && (Enclosed(m, w.mapPosition) ==> r == (w.direction + side) % 4)
  {
    var walls := Walls(m, w.mapPosition);
    var r := CircularHeading(m, w, side);
    FirstAllowed(walls, w.direction, side);
    assert Enclosed(m, w.mapPosition) <==> forall e :: 0 <= e < 4 ==> walls[e];
  }

  /**
   * Over any walls: trying the side, then the direction and its turns away
   * from the side finds an open direction unless all four are walled, and
   * then ends on the side.
   */
  lemma FirstAllowed(walls: seq<bool>, d: int, side: int)
    requires |walls| == 4 && 0 <= d < Stay && side in {-1, 1}
    ensures var r := if !walls[(d + side) % 4] then (d + side) % 4 else RotateAway(walls, d, side, 0);
            && (walls[r] <==> forall e :: 0 <= e < 4 ==> walls[e])
            && ((forall e :: 0 <= e < 4 ==> walls[e]) ==> r == (d + side) % 4)
  {
    var d1 := (d - side) % 4;
    var d2 := (d1 - side) % 4;
    var d3 := (d2 - side) % 4;
    ThreeTurns(walls, d, side);
    TurnsCover(d, side, d);
    if walls[d3] && walls[d] && walls[d1] && walls[d2] {
      forall e | 0 <= e < 4
        ensures walls[e]
      {
        TurnsCover(d, side, e);
      }
    }
  }

  /** The rotation loop written out: the first of the three turns whose cell ahead is allowed. */
  lemma ThreeTurns(walls: seq<bool>, d: int, side: int)
    requires |walls| == 4 && 0 <= d < Stay && side in {-1, 1}
    ensures var d1 := (d - side) % 4; var d2 := (d1 - side) % 4; var d3 := (d2 - side) % 4;
            RotateAway(walls, d, side, 0) ==
              if !walls[d] then d else if !walls[d1] then d1 else if !walls[d2] then d2 else d3
  {
    var d2 := ((d - side) % 4 - side) % 4;
    assert RotateAway(walls, d2, side, 2) == if walls[d2] then RotateAway(walls, (d2 - side) % 4, side, 3) else d2;
  }

  /** Three turns by `-side` visit the other three directions and end on the side. */
  lemma TurnsCover(d: int, side: int, e: int)
    requires 0 <= d < Stay && side in {-1, 1} && 0 <= e < Stay
    ensures var d1 := (d - side) % 4; var d2 := (d1 - side) % 4; var d3 := (d2 - side) % 4;
            d3 == (d + side) % 4 && (e == d || e == d1 || e == d2 || e == d3)
  {
  }

  /**
   * On a cell, a linear watcher reverses exactly when the cell ahead is
   * forbidden, so it heads into a forbidden cell only when both the cell
   * ahead and the cell behind are forbidden. Between cells it keeps going.
   */
  lemma LinearHeadingRule(m: Map, w: Motion)
    requires WellFormed(m) && 0 <= w.direction < Stay
    ensures var r, c, d := LinearHeading(m, w), w.mapPosition, w.direction;
            && (!w.inPlace ==> r == d)
            && (w.inPlace ==> (r != d <==> IsForbidden(m, c, d, false)))
            && (w.inPlace && IsForbidden(m, c, r, false) ==> IsForbidden(m, c, d, false) && IsForbidden(m, c, TurnedAround(d), false))
  {
  }

  /** Turning around twice restores the direction, and it reverses the step vector. */
  lemma TurnedAroundInvolution(d: int)
    requires 0 <= d < Stay
    ensures TurnedAround(TurnedAround(d)) == d
    ensures Directions[TurnedAround(d)] == (-Directions[d].0, -Directions[d].1)
  {
  }

  /** Bumping into the same watcher twice restores direction and side. */
  lemma CollidedTwice(w: WatcherState, ox: int, oy: int)
    requires WatcherOk(w)
    ensures WatcherCollided(WatcherCollided(w, ox, oy), ox, oy) == w
    ensures WatcherOk(WatcherCollided(w, ox, oy))
  {
  }

  /** Updates keep watchers facing a movement direction, and a circular watcher keeps its side. */
  lemma WatcherUpdatedOk(m: Map, w: WatcherState)
    requires WellFormed(m) && WatcherOk(w)
    ensures WatcherOk(WatcherUpdated(m, w)) && WatcherUpdated(m, w).patrol == w.patrol
    ensures !w.motion.inPlace ==> WatcherUpdated(m, w).motion == Moved(w.motion)
  {
  }

  /** A watcher. `body` is its MovingObject part. */
  class Watcher {
    const body: Mover
    var patrol: Patrol

    function State(): WatcherState
      reads this, body
    {
      WatcherState(body.State(), patrol)
    }

    constructor (position: Cell, direction: int, patrol: Patrol)
      ensures fresh(body) && State() == SpawnedWatcher(position, direction, patrol)
    {
      body := new Mover(position, direction);
      this.patrol := patrol;
    }

    /** CircularWatcher.update and LinearWatcher.update. */
    method Update(m: Map)
      requires WellFormed(m) && 0 <= body.direction < Stay
      modifies this, body
      ensures State() == WatcherUpdated(m, old(State()))
    {
      if body.inPlace {
        match patrol
        case Circular(side) =>
          KeepWall(m, side);
        case Linear =>
          // wall ahead
          if IsForbidden(m, body.mapPosition, body.direction, false) {
            TurnAround();
          }
      }
      body.Update();
    }

    /** The turning part of CircularWatcher.update, on a cell. */
    method KeepWall(m: Map, side: int)
      requires WellFormed(m) && 0 <= body.direction < Stay && body.inPlace
      modifies body
      ensures body.State() == old(body.State()).(direction := CircularHeading(m, old(body.State()), side))
    {
      // no wall on the given side: turn to the side
      if !IsForbidden(m, body.mapPosition, (body.direction + side) % 4, false) {
        body.direction := (body.direction + side) % 4;
      } else {
        // wall ahead: turn to the other side
        var c, d, i := body.mapPosition, body.direction, 0;
        ghost var walls := Walls(m, c);
        while IsForbidden(m, c, d, false) && i <= 2
          invariant 0 <= i <= 3 && 0 <= d < Stay
          invariant RotateAway(walls, d, side, i) == RotateAway(walls, old(body.direction), side, 0)
          decreases 3 - i
        {
          d := (d - side) % 4;
          i := i + 1;
        }
        body.direction := d;
      }
    }

    /** LinearWatcher.turn_around. */
    method TurnAround()
      modifies body
      ensures body.State() == old(body.State()).(direction := TurnedAround(old(body.direction)))
    {
      body.direction := (body.direction + 2) % 4;
    }

    /** handle_collision with another watcher. */
    method HandleCollision(other: Watcher)
      modifies this, body
      ensures State() == WatcherCollided(old(State()), old(other.body.x), old(other.body.y))
    {
      if Collides(body.x, body.y, other.body.x, other.body.y) {
        match patrol
        case Circular(side) =>
          patrol := Circular(-side);
          body.direction := (body.direction + 2) % 4;
        case Linear =>
          TurnAround();
      }
    }
  }
}
