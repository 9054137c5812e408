/**
 * The objects that do not move: food and the key (collectibles, gone once
 * the player covers them), the bell (rung once) and the gate (opened by the
 * key).
 */
module Items {
  import opened Grid
  import opened Wrappers
  import opened Entities

  datatype CollectibleKind = Food | Key | Bell

  /**
   * A collectible or the bell. `present` is the source's `exists` flag (a
   * Dafny keyword); `ringing` says whether the bell shows its ringing
   * animation, and `stopRingingAt` is the frame of its pending stop_ringing.
   */
  datatype ItemState = ItemState(kind: CollectibleKind, x: int, y: int, present: bool,
                                 rung: bool, ringing: bool, stopRingingAt: Option<int>)

  datatype GateState = GateState(x: int, y: int, isOpen: bool)

  function SpawnedItem(kind: CollectibleKind, c: Cell): ItemState {
    ItemState(kind, c.0 * Size, c.1 * Size, true, false, false, None)
  }

  function SpawnedGate(c: Cell): GateState {
    GateState(c.0 * Size, c.1 * Size, false)
  }

  /**
   * Collectible.handle_collision and Bell.handle_collision with the player
   * at (hx, hy): food and the key vanish when covered, an unrung bell rings
   * and schedules the end of its animation.
   */
  function Touched(c: ItemState, hx: int, hy: int, now: int): (r: ItemState)
    // a collectible never moves or changes kind, and nothing happens from a distance
    ensures r.kind == c.kind && (r.x, r.y) == (c.x, c.y)
    ensures !Overlaps(c.x, c.y, hx, hy) ==> r == c
    // food and the key vanish under Homer; a bell rings once and stays
    ensures r.present <==> c.present && (c.kind == Bell || !Overlaps(c.x, c.y, hx, hy))
    ensures r.rung <==> c.rung || (c.kind == Bell && Overlaps(c.x, c.y, hx, hy))
  {
    if !Overlaps(c.x, c.y, hx, hy) then c
    else match c.kind
      case Food => c.(present := false)
      case Key => c.(present := false)
      case Bell => if c.rung then c else c.(rung := true, ringing := true, stopRingingAt := Some(now + RingingDelay))
  }

  /** Bell.stop_ringing, with the clock dropping the fired event: the animation ends; the bell stays rung. */
  function StoppedRinging(c: ItemState): ItemState {
    c.(ringing := false, stopRingingAt := None)
  }

  /** Gate.open: the gate opens once the player holds the key and stays open. */
  function GateOpened(g: GateState, hasKey: bool): (r: GateState)
    ensures r.isOpen <==> g.isOpen || hasKey
    ensures (r.x, r.y) == (g.x, g.y)
  {
    g.(isOpen := g.isOpen || hasKey)
  }

  /**
   * Touching changes only the flags: a collectible disappears exactly when
   * covered, the bell never disappears, and `rung` only goes from false to
   * true, exactly when an unrung bell is covered.
   */
  lemma TouchedFlags(c: ItemState, hx: int, hy: int, now: int)
    ensures var t := Touched(c, hx, hy, now);
            && t.kind == c.kind && t.x == c.x && t.y == c.y
            && (c.present && !t.present <==> c.present && c.kind != Bell && Overlaps(c.x, c.y, hx, hy))
            && (t.present ==> c.present)
            && (c.kind == Bell ==> t.present == c.present)
            && (c.rung ==> t.rung)
            && (!c.rung && t.rung <==> c.kind == Bell && Overlaps(c.x, c.y, hx, hy) && !c.rung)
  {
  }

  /** The bell rings at most once: touching a rung bell again changes nothing. */
  lemma BellRingsOnce(c: ItemState, hx: int, hy: int, now: int, hx': int, hy': int, later: int)
    requires c.kind == Bell
    ensures var t := Touched(c, hx, hy, now);
            t.rung ==> Touched(t, hx', hy', later) == t
  {
  }

  /** Opening is idempotent and monotone. */
  lemma GateOpenedIdempotent(g: GateState, hasKey: bool, hasKey': bool)
    ensures GateOpened(GateOpened(g, hasKey), hasKey) == GateOpened(g, hasKey)
    ensures g.isOpen ==> GateOpened(g, hasKey').isOpen
    ensures GateOpened(g, hasKey).isOpen <==> g.isOpen || hasKey
  {
  }

  /** Food, the key, or the bell (Collectible and Bell share the collectibles list). */
  class Collectible {
    const kind: CollectibleKind
    const x: int
    const y: int
    var present: bool
    var rung: bool
    var ringing: bool
    var stopRingingAt: Option<int>

    function State(): ItemState
      reads this
    {
      ItemState(kind, x, y, present, rung, ringing, stopRingingAt)
    }

    constructor (kind: CollectibleKind, c: Cell)
      ensures State() == SpawnedItem(kind, c)
    {
      this.kind := kind;
      x, y := c.0 * Size, c.1 * Size;
      present, rung, ringing, stopRingingAt := true, false, false, None;
    }

    /** Collectible.handle_collision / Bell.handle_collision, the player being at (hx, hy). */
    method HandleCollision(hx: int, hy: int, now: int)
      modifies this
      ensures State() == Touched(old(State()), hx, hy, now)
    {
      if kind == Bell {
        if !rung && Overlaps(x, y, hx, hy) {
          rung := true;
          ringing := true;
          stopRingingAt := Some(now + RingingDelay);
        }
      } else if Overlaps(x, y, hx, hy) {
        present := false;
      }
    }

    /** Bell.stop_ringing, fired by the clock, which also drops the event. */
    method StopRinging()
      modifies this
      ensures State() == StoppedRinging(old(State()))
    {
      ringing := false;
      stopRingingAt := None;
    }
  }

  /** The exit of the level. */
  class Gate {
    const x: int
    const y: int
    var isOpen: bool

    function State(): GateState
      reads this
    {
      GateState(x, y, isOpen)
    }

    constructor (c: Cell)
      ensures State() == SpawnedGate(c)
    {
      x, y := c.0 * Size, c.1 * Size;
      isOpen := false;
    }

    /** Gate.open, told whether the player holds the key. */
    method Open(hasKey: bool)
      modifies this
      ensures State() == GateOpened(old(State()), hasKey)
    {
      if hasKey {
        isOpen := true;
      }
    }
  }
}
