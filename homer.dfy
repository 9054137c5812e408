/**
 * The player, Homer: reads the held direction keys, moves on the grid
 * without cutting corners, and lives through the roaming, bumped
 * (invincible), losing (fading out) and winning (drifting away) states.
 */
module Player {
  import opened Grid
  import opened Wrappers
  import opened Entities
  import opened Items

  const Opaque: int := 255
  const Flashing: int := 100
  const FadeStep: int := 5
  const FallSpeed: int := 4
  const DriftSpeed: int := 1

  /** Homer's state; `invincibleUntil` is the frame of a pending end_invincibility. */
  datatype HomerState = HomerState(motion: Motion, opacity: int, foodCount: int, hasKey: bool,
                                   bumpCount: int, invincible: bool, lost: bool, won: bool,
                                   invincibleUntil: Option<int>)

  /** The object Homer is tested against, by class, with its position. */
  datatype Other =
    | WatcherAt(x: int, y: int)
    | FoodAt(x: int, y: int)
    | KeyAt(x: int, y: int)
    | BellAt(x: int, y: int, rung: bool)
    | GateAt(x: int, y: int)

  function SpawnedHomer(c: Cell): HomerState {
    HomerState(Spawned(c, Stay), Opaque, 0, false, 0, false, false, false, None)
  }

  /** What every reachable Homer satisfies. */
  predicate HomerOk(h: HomerState) {
    && ValidDirection(h.motion.direction)
    && 0 <= h.bumpCount <= 1
    && (h.lost ==> h.bumpCount == 1)
    && (!h.invincible ==> h.invincibleUntil.None?)
    && 0 <= h.opacity <= Opaque && h.opacity % FadeStep == 0
  }

  /** The first held key in the order Up, Right, Down, Left, or Stay when none is held. */
  function FirstHeld(held: set<int>): (d: int)
    ensures 0 <= d <= Stay
    ensures d < Stay ==> d in held
    ensures forall e :: 0 <= e < d ==> e !in held
  {
    if Up in held then Up
    else if Right in held then Right
    else if Down in held then Down
    else if Left in held then Left
    else Stay
  }

  /**
   * The direction Homer takes this frame: the wanted one, suppressed when it
   * leads into a forbidden cell, adopted on a cell or as a reversal.
   */
  function ChosenDirection(h: HomerState, held: set<int>, m: Map): (d: int)
    requires WellFormed(m) && ValidDirection(h.motion.direction)
    ensures ValidDirection(d)
    // on a cell: the first held key, or a stop; never a move into a forbidden cell
    ensures h.motion.inPlace ==> d == FirstHeld(held) || d == Stay
    ensures h.motion.inPlace && d != Stay ==> !IsForbidden(m, h.motion.mapPosition, d, h.hasKey)
    // between cells: the old direction, or the first held key if it reverses it
    ensures !h.motion.inPlace && d != h.motion.direction ==>
              d == FirstHeld(held) < Stay && Abs(h.motion.direction - d) == 2
  {
    var wanted := FirstHeld(held);
    var allowed := if h.motion.inPlace && IsForbidden(m, h.motion.mapPosition, wanted, h.hasKey) then Stay else wanted;
    if h.motion.inPlace || (allowed < Stay && Abs(h.motion.direction - allowed) == 2) then allowed
    else h.motion.direction
  }

  /** Homer.update. */
  function Updated(h: HomerState, held: set<int>, m: Map): (r: HomerState)
    requires WellFormed(m) && ValidDirection(h.motion.direction)
    // an update changes only the motion and the opacity
    ensures r.(motion := h.motion, opacity := h.opacity) == h
    // a losing or winning Homer keeps its heading; only a winner slows to a drift
    ensures h.lost || h.won ==> r.motion.direction == h.motion.direction
    ensures !h.lost ==> r.motion.speed == if h.won then DriftSpeed else h.motion.speed
    ensures h.lost ==> r.motion.speed == h.motion.speed
  {
    if h.lost then
      h.(opacity := if h.opacity > 0 then h.opacity - FadeStep else h.opacity,
         motion := Moved(h.motion))
    else
      var motion := if h.won then h.motion.(speed := DriftSpeed)
                    else h.motion.(direction := ChosenDirection(h, held, m));
      h.(opacity := if h.invincible && h.opacity == Opaque then Flashing else Opaque,
         motion := Moved(motion))
  }

  /** Homer.update restarts the level once a losing Homer has faded out. */
  predicate Restarts(h: HomerState) {
    h.lost && h.opacity <= 0
  }

  /** A watcher bump: the second one is fatal, the first one buys a second of invincibility. */
  function Bumped(h: HomerState, now: int): HomerState {
    if h.bumpCount == 1 then
      h.(lost := true, motion := h.motion.(speed := FallSpeed, direction := Down))
    else
      h.(bumpCount := h.bumpCount + 1, invincible := true, invincibleUntil := Some(now + InvincibleDelay))
  }

  /** Whether entering the gate wins: all food eaten and not won yet. */
  predicate Wins(h: HomerState, levelFood: int) {
    h.foodCount == levelFood && !h.won
  }

  /** Homer.handle_collision, at frame `now`, in a level with `levelFood` food. */
  function Collided(h: HomerState, other: Other, levelFood: int, now: int): (r: HomerState)
    // a collision never moves Homer, and counters and flags only grow
    ensures (r.motion.x, r.motion.y) == (h.motion.x, h.motion.y)
    ensures r.foodCount == h.foodCount + (if other.FoodAt? && Overlaps(h.motion.x, h.motion.y, other.x, other.y) then 1 else 0)
    ensures (h.hasKey ==> r.hasKey) && (h.won ==> r.won) && (h.lost ==> r.lost)
    // winning is entering the gate with all the food eaten
    ensures r.won != h.won <==> SchedulesCompletion(h, other, levelFood)
    // the key is the only thing that gives the key
    ensures r.hasKey != h.hasKey <==> OpensGate(h, other) && !h.hasKey
  {
    var x, y := h.motion.x, h.motion.y;
    var h1 := if other.WatcherAt? && Collides(x, y, other.x, other.y) && !h.invincible then Bumped(h, now) else h;
    if !Overlaps(x, y, other.x, other.y) then h1
    else match other
      case WatcherAt(_, _) => h1
      case FoodAt(_, _) => h1.(foodCount := h1.foodCount + 1)
      case KeyAt(_, _) => h1.(hasKey := true)
      case GateAt(_, _) => if Wins(h1, levelFood) then h1.(invincible := true, won := true) else h1
      case BellAt(_, _, rung) =>
        if rung then h1 else h1.(invincible := true, invincibleUntil := Some(now + BellInvincibleDelay))
  }

  /** The collision schedules Level.complete. */
  predicate SchedulesCompletion(h: HomerState, other: Other, levelFood: int) {
    other.GateAt? && Overlaps(h.motion.x, h.motion.y, other.x, other.y) && Wins(h, levelFood)
  }

  /** The collision makes the gate recompute its state with the key held. */
  predicate OpensGate(h: HomerState, other: Other) {
    other.KeyAt? && Overlaps(h.motion.x, h.motion.y, other.x, other.y)
  }

  /** Homer.end_invincibility, with the clock dropping the fired event. */
  function InvincibilityEnded(h: HomerState): HomerState {
    h.(invincible := false, invincibleUntil := None)
  }

  /** `k` frames of Homer.update with the same keys held. */
  function Updates(h: HomerState, held: set<int>, m: Map, k: nat): (r: HomerState)
    requires WellFormed(m) && HomerOk(h)
    ensures HomerOk(r)
  {
    if k == 0 then h
    else
      var r := Updates(h, held, m, k - 1);
      UpdatePreservesOk(r, held, m);
      Updated(r, held, m)
  }

  /** The direction rule. */
  lemma DirectionRule(h: HomerState, held: set<int>, m: Map)
    requires WellFormed(m) && ValidDirection(h.motion.direction)
    ensures var d, wanted, mp := ChosenDirection(h, held, m), FirstHeld(held), h.motion.mapPosition;
            && ValidDirection(d)
            // on a cell: the wanted direction if it is allowed, otherwise stop
            && (h.motion.inPlace ==> d == if IsForbidden(m, mp, wanted, h.hasKey) then Stay else wanted)
            // a chosen movement direction never leads into a forbidden cell
            && (h.motion.inPlace && d != Stay ==> !IsForbidden(m, mp, d, h.hasKey))
            // between cells: keep going, or reverse
            && (!h.motion.inPlace ==>
                  d == (if wanted < Stay && Abs(h.motion.direction - wanted) == 2 then wanted else h.motion.direction))
  {
  }

  /** The reversal test also lets a stopped Homer between cells start moving down. */
  lemma StayToDownQuirk(h: HomerState, m: Map)
    requires WellFormed(m) && !h.motion.inPlace && h.motion.direction == Stay
    ensures ChosenDirection(h, {Down}, m) == Down
    ensures ChosenDirection(h, {Left}, m) == Stay
  {
  }

  /** Once Homer has won or lost, the keys no longer matter. */
  lemma InputIgnoredWhenOver(h: HomerState, held: set<int>, held': set<int>, m: Map)
    requires WellFormed(m) && ValidDirection(h.motion.direction) && (h.won || h.lost)
    ensures Updated(h, held, m) == Updated(h, held', m)
    ensures h.won && !h.lost ==> Updated(h, held, m).motion.speed == DriftSpeed
    ensures h.won && !h.lost ==> Updated(h, held, m).motion.direction == h.motion.direction
  {
  }

  /**
   * Opacity: a losing Homer fades by 5 per frame while visible; otherwise an
   * invincible Homer alternates between 255 and 100 and a vulnerable one is 255.
   */
  lemma OpacityRule(h: HomerState, held: set<int>, m: Map)
    requires WellFormed(m) && HomerOk(h)
    ensures var o := Updated(h, held, m).opacity;
            && (h.lost && h.opacity > 0 ==> o == h.opacity - FadeStep)
            && (h.lost && h.opacity == 0 ==> o == 0)
            && (!h.lost ==> (o == Flashing <==> h.invincible && h.opacity == Opaque))
            && (!h.lost ==> (o == Opaque <==> !(h.invincible && h.opacity == Opaque)))
  {
  }

  lemma UpdatePreservesOk(h: HomerState, held: set<int>, m: Map)
    requires WellFormed(m) && HomerOk(h)
    ensures HomerOk(Updated(h, held, m))
  {
    DirectionRule(h, held, m);
  }

  /**
   * A losing Homer with opacity 5n fades for n frames, one step of 5 per
   * frame, and the frame after that restarts the level.
   */
  lemma {:induction false} FadeOut(h: HomerState, held: set<int>, m: Map, k: nat)
    requires WellFormed(m) && HomerOk(h) && h.lost
    requires k <= h.opacity / FadeStep
    ensures Updates(h, held, m, k).lost
    ensures Updates(h, held, m, k).opacity == h.opacity - FadeStep * k
    ensures Restarts(Updates(h, held, m, k)) <==> k == h.opacity / FadeStep
  {
    if k > 0 {
      FadeOut(h, held, m, k - 1);
    }
  }

  /**
   * Bumping into a watcher while vulnerable: the first bump makes Homer
   * invincible for one second, the second makes him lose, falling down fast.
   * Anything else leaves the bump count and the losing flag alone.
   */
  lemma BumpRule(h: HomerState, other: Other, levelFood: int, now: int)
    requires HomerOk(h)
    ensures var r := Collided(h, other, levelFood, now);
            var hit := other.WatcherAt? && Collides(h.motion.x, h.motion.y, other.x, other.y) && !h.invincible;
            && (hit && h.bumpCount == 0 ==>
                  r.bumpCount == 1 && r.invincible && r.invincibleUntil == Some(now + InvincibleDelay) && !r.lost)
            && (hit && h.bumpCount == 1 ==>
                  r.lost && r.motion.speed == FallSpeed && r.motion.direction == Down && r.bumpCount == 1)
            && (!hit ==> r.bumpCount == h.bumpCount && r.lost == h.lost && r.motion == h.motion)
            && r.motion.x == h.motion.x && r.motion.y == h.motion.y
  {
  }

  /**
   * Covering food counts it, covering the key takes it, entering the gate
   * with all food eaten wins once, and ringing the bell grants three seconds
   * of invincibility, replacing any pending end.
   */
  lemma PickupRule(h: HomerState, other: Other, levelFood: int, now: int)
    requires HomerOk(h) && !other.WatcherAt?
    ensures var r := Collided(h, other, levelFood, now);
            var over := Overlaps(h.motion.x, h.motion.y, other.x, other.y);
            && r.foodCount == h.foodCount + (if over && other.FoodAt? then 1 else 0)
            && (r.hasKey <==> h.hasKey || (over && other.KeyAt?))
            && (r.won <==> h.won || SchedulesCompletion(h, other, levelFood))
            && (SchedulesCompletion(h, other, levelFood) ==> r.invincible)
            && (over && other.BellAt? && !other.rung ==> r.invincible && r.invincibleUntil == Some(now + BellInvincibleDelay))
            && (!over ==> r == h)
  {
  }

  /** Level.complete is scheduled at most once: after a win no collision wins again. */
  lemma WinsOnce(h: HomerState, other: Other, other': Other, levelFood: int, now: int)
    requires SchedulesCompletion(h, other, levelFood)
    ensures !SchedulesCompletion(Collided(h, other, levelFood, now), other', levelFood)
  {
  }

  lemma CollisionPreservesOk(h: HomerState, other: Other, levelFood: int, now: int)
    requires HomerOk(h)
    ensures HomerOk(Collided(h, other, levelFood, now))
  {
  }

  /** The player's object. `body` is its MovingObject part. */
  class Homer {
    const body: Mover
    var opacity: int
    var foodCount: int
    var hasKey: bool
    var bumpCount: int
    var invincible: bool
    var lost: bool
    var won: bool
    var invincibleUntil: Option<int>

    function State(): HomerState
      reads this, body
    {
      HomerState(body.State(), opacity, foodCount, hasKey, bumpCount, invincible, lost, won, invincibleUntil)
    }

    constructor (position: Cell)
      ensures fresh(body) && State() == SpawnedHomer(position)
    {
      body := new Mover(position, Stay);
      opacity := Opaque;
      foodCount, hasKey, bumpCount := 0, false, 0;
      invincible, lost, won := false, false, false;
      invincibleUntil := None;
    }

    /** Homer.update; `restart` says that it asks the level to restart. */
    method Update(m: Map, held: set<int>) returns (restart: bool)
      requires WellFormed(m) && ValidDirection(body.direction)
      modifies this, body
      ensures State() == Updated(old(State()), held, m)
      ensures restart == Restarts(old(State()))
    {
      restart := false;
      if lost {
        // vanish, then restart the level
        if opacity > 0 {
          opacity := opacity - FadeStep;
        } else {
          restart := true;
        }
      } else {
        // flash while invincible
        if invincible && opacity == Opaque {
          opacity := Flashing;
        } else {
          opacity := Opaque;
        }
        if won {
          body.speed := DriftSpeed;
        } else {
          // the first held key
          var i := 0;
          while i < 4 && i !in held
            invariant 0 <= i <= 4
            invariant forall e :: 0 <= e < i ==> e !in held
          {
            i := i + 1;
          }
          var newDirection := if i < 4 then i else Stay;
          // stop before moving into a brick
          if body.inPlace && IsForbidden(m, body.mapPosition, newDirection, hasKey) {
            newDirection := Stay;
          }
          // change direction on a cell, or to turn around
          if body.inPlace || (newDirection < Stay && Abs(body.direction - newDirection) == 2) {
            body.direction := newDirection;
          }
        }
      }
      body.Update();
    }

    /** Homer.handle_collision; `complete` says that it schedules Level.complete. */
    method HandleCollision(other: Other, gate: Gate, levelFood: int, now: int) returns (complete: bool)
      requires ValidDirection(body.direction)
      modifies this, body, gate
      ensures State() == Collided(old(State()), other, levelFood, now)
      ensures complete == SchedulesCompletion(old(State()), other, levelFood)
      ensures gate.State() == if OpensGate(old(State()), other) then GateOpened(old(gate.State()), true) else old(gate.State())
    {
      complete := false;
      // watchers
      if other.WatcherAt? && Collides(body.x, body.y, other.x, other.y) && !invincible {
        if bumpCount == 1 {
          lost := true;
          // dramatically fly down
          body.speed := FallSpeed;
          body.direction := Down;
        } else {
          bumpCount := bumpCount + 1;
          invincible := true;
          invincibleUntil := Some(now + InvincibleDelay);
        }
      }
      // collectibles, gate and bell
      if Overlaps(body.x, body.y, other.x, other.y) {
        match other
        case WatcherAt(_, _) =>
        case FoodAt(_, _) =>
          foodCount := foodCount + 1;
        case KeyAt(_, _) =>
          hasKey := true;
          gate.Open(hasKey);
        case GateAt(_, _) =>
          if foodCount == levelFood && !won {
            invincible := true;
            won := true;
            complete := true;
          }
        case BellAt(_, _, rung) =>
          if !rung {
            invincible := true;
            // replaces any pending end of invincibility
            invincibleUntil := Some(now + BellInvincibleDelay);
          }
      }
    }

    /** Homer.end_invincibility, fired by the clock, which also drops the event. */
    method EndInvincibility()
      modifies this
      ensures State() == InvincibilityEnded(old(State()))
    {
      invincible := false;
      invincibleUntil := None;
    }
  }
}
