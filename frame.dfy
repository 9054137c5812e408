/**
 * One frame of Level.update as a specification over the level's objects:
 * every object moves, the level restarts when a faded-out Homer asks for
 * it, then the collisions are handled in a fixed order and the taken
 * collectibles are removed.
 */
module Frames {
  import opened Grid
  import opened Entities
  import opened Items
  import opened Player
  import opened Watchers
  import opened Setup

  /** What Level.update needs of the objects: a Homer and a gate, and every object in a reachable state. */
  predicate Ready(p: Population) {
    && |p.homers| > 0 && |p.gates| > 0
    && (forall k :: 0 <= k < |p.homers| ==> HomerOk(p.homers[k]))
    && (forall k :: 0 <= k < |p.watchers| ==> WatcherOk(p.watchers[k]))
  }

  /** The update loop over all groups; gates, collectibles and bricks do not move. */
  function MoveAll(p: Population, m: Map, held: set<int>): (r: Population)
    requires WellFormed(m) && Ready(p)
  {
    p.(homers := seq(|p.homers|, k requires 0 <= k < |p.homers| => Updated(p.homers[k], held, m)),
       watchers := seq(|p.watchers|, k requires 0 <= k < |p.watchers| => WatcherUpdated(m, p.watchers[k])))
  }

  /** Some Homer asks for the level to be set up again during the update loop. */
  predicate AnyRestart(p: Population) {
    exists k :: 0 <= k < |p.homers| && Restarts(p.homers[k])
  }

  /** The first Homer tested against each watcher in turn. */
  function HitByWatchers(h: HomerState, ws: seq<WatcherState>, levelFood: int, now: int): HomerState {
    if ws == [] then h
    else
      var w := ws[|ws| - 1];
      Collided(HitByWatchers(h, ws[..|ws| - 1], levelFood, now), WatcherAt(w.motion.x, w.motion.y), levelFood, now)
  }

  /** The collectible as Homer's collision handler sees it. */
  function OtherOf(c: ItemState): Other {
    match c.kind
    case Food => FoodAt(c.x, c.y)
    case Key => KeyAt(c.x, c.y)
    case Bell => BellAt(c.x, c.y, c.rung)
  }

  /**
   * Homer and each collectible in turn: first Homer's handler (which opens
   * the gate when it takes the key), then the collectible's own.
   */
  function TouchItems(h: HomerState, g: GateState, cs: seq<ItemState>, levelFood: int, now: int)
    : (r: (HomerState, GateState, seq<ItemState>))
    ensures |r.2| == |cs|
  {
    if cs == [] then (h, g, [])
    else
      var (h1, g1, cs1) := TouchItems(h, g, cs[..|cs| - 1], levelFood, now);
      var (h2, g2, c2) := TouchOne(h1, g1, cs[|cs| - 1], levelFood, now);
      (h2, g2, cs1 + [c2])
  }

  /** The collectible pass over one more collectible is one more step. */
  lemma TouchItemsStep(h: HomerState, g: GateState, cs: seq<ItemState>, i: int, levelFood: int, now: int)
    requires 0 <= i < |cs|
    ensures var (h1, g1, cs1) := TouchItems(h, g, cs[..i], levelFood, now);
            var (h2, g2, c2) := TouchOne(h1, g1, cs[i], levelFood, now);
            TouchItems(h, g, cs[..i + 1], levelFood, now) == (h2, g2, cs1 + [c2])
  {
    assert cs[..i + 1][..i] == cs[..i];
  }

  /** Homer and one collectible. */
  function TouchOne(h: HomerState, g: GateState, c: ItemState, levelFood: int, now: int): (HomerState, GateState, ItemState) {
    var h' := Collided(h, OtherOf(c), levelFood, now);
    var g' := if OpensGate(h, OtherOf(c)) then GateOpened(g, true) else g;
    (h', g', Touched(c, h'.motion.x, h'.motion.y, now))
  }

  /** Watcher `w` (at index `a`) tested against each other watcher among the first `n`. */
  function BumpedBy(w: WatcherState, ws: seq<WatcherState>, a: int, n: nat): WatcherState
    requires n <= |ws|
  {
    if n == 0 then w
    else
      var w' := BumpedBy(w, ws, a, n - 1);
      if n - 1 == a then w' else WatcherCollided(w', ws[n - 1].motion.x, ws[n - 1].motion.y)
  }

  /** Every ordered pair of distinct watchers; a watcher is never tested against itself. */
  function WatchersCollided(ws: seq<WatcherState>): (r: seq<WatcherState>)
    ensures |r| == |ws|
  {
    seq(|ws|, a requires 0 <= a < |ws| => BumpedBy(ws[a], ws, a, |ws|))
  }

  /** The collectibles still present, in their order. */
  function Pruned(cs: seq<ItemState>): seq<ItemState> {
    if cs == [] then []
    else Pruned(cs[..|cs| - 1]) + (if cs[|cs| - 1].present then [cs[|cs| - 1]] else [])
  }

  /**
   * Homer's part of the collision pass: against the watchers, each collectible
   * in turn and the first gate. It gives Homer, the gate and the collectibles
   * afterwards, and whether Homer entered the gate and scheduled Level.complete.
   */
  function HomerPass(q: Population, now: int): (HomerState, GateState, seq<ItemState>, bool)
    requires |q.homers| > 0 && |q.gates| > 0
  {
    var h0 := HitByWatchers(q.homers[0], q.watchers, q.foodTotal, now);
    CollectAndEnter(h0, q.gates[0], q.collectibles, q.foodTotal, now)
  }

  /** Homer `h`, past the watchers, against each collectible in turn and then the gate `g`. */
  function CollectAndEnter(h: HomerState, g: GateState, cs: seq<ItemState>, levelFood: int, now: int)
    : (HomerState, GateState, seq<ItemState>, bool)
  {
    var (h1, g1, cs1) := TouchItems(h, g, cs, levelFood, now);
    var gate := GateAt(g.x, g.y);
    (Collided(h1, gate, levelFood, now), g1, cs1, SchedulesCompletion(h1, gate, levelFood))
  }

  /**
   * The collision pass and the removal of taken collectibles; the flag says
   * whether Homer entered the gate and scheduled Level.complete.
   */
  function Collide(q: Population, now: int): (r: (Population, bool))
    requires |q.homers| > 0 && |q.gates| > 0
    // no object appears or disappears but the taken collectibles, and only the first Homer takes part
    ensures |r.0.homers| == |q.homers| && |r.0.gates| == |q.gates| && |r.0.watchers| == |q.watchers|
    ensures r.0.bricks == q.bricks && r.0.foodTotal == q.foodTotal
    // the collectibles left are no more than before
    ensures |r.0.collectibles| <= |q.collectibles|
    // the completion is scheduled only by a winning Homer
    ensures r.1 ==> r.0.homers[0].won
  {
    var (h2, g1, cs1, complete) := HomerPass(q, now);
    PrunedFilter(cs1);
    (q.(homers := q.homers[0 := h2], gates := q.gates[0 := g1],
        collectibles := Pruned(cs1), watchers := WatchersCollided(q.watchers)),
     complete)
  }

  /** Level.update when not paused, at frame `now` with the keys `held`, on map `m`. */
  function Frame(p: Population, m: Map, held: set<int>, now: int): (r: (Population, bool))
    requires Playable(m) && Ready(p)
    ensures |r.0.homers| > 0 && |r.0.gates| > 0
    ensures forall c :: c in r.0.collectibles ==> c.present
    ensures r.1 ==> r.0.homers[0].won
    // without a restart the walls and the food total stay; a restart counts the map's food afresh
    ensures !AnyRestart(p) ==> r.0.bricks == p.bricks && r.0.foodTotal == p.foodTotal && |r.0.watchers| == |p.watchers|
    ensures AnyRestart(p) ==> r.0.foodTotal == Occurrences(m, '*')
  {
    PreparedReady(p, m, held);
    var q := Prepared(p, m, held);
    PrunedFilter(HomerPass(q, now).2);
    Collide(q, now)
  }

  /** The update loop: every object moves, or the level is set up afresh when a Homer asks for it. */
  function Prepared(p: Population, m: Map, held: set<int>): Population
    requires Playable(m) && Ready(p)
  {
    if AnyRestart(p) then Populate(m) else MoveAll(p, m, held)
  }

  /** Moving or setting up again leaves the objects ready for the collision pass. */
  lemma PreparedReady(p: Population, m: Map, held: set<int>)
    requires Playable(m) && Ready(p)
    ensures Ready(Prepared(p, m, held))
  {
    if AnyRestart(p) {
      PopulateBalanced(m);
    } else {
      MoveAllReady(p, m, held);
    }
  }

  // ---------------------------------------------------------------------------
  // Removal of taken collectibles

  /**
   * Pruning is a filter: it keeps exactly the present collectibles, in
   * order, and so keeps a list whose collectibles are all present.
   */
  lemma {:induction false} PrunedFilter(cs: seq<ItemState>)
    ensures forall c :: c in Pruned(cs) <==> c in cs && c.present
    ensures |Pruned(cs)| <= |cs|
    ensures (forall k :: 0 <= k < |cs| ==> cs[k].present) ==> Pruned(cs) == cs
  {
    if cs != [] {
      var init := cs[..|cs| - 1];
      PrunedFilter(init);
      assert cs == init + [cs[|cs| - 1]];
    }
  }

  lemma {:induction false} PrunedAppend(a: seq<ItemState>, b: seq<ItemState>)
    ensures Pruned(a + b) == Pruned(a) + Pruned(b)
    decreases |b|
  {
    if b == [] {
      assert a + b == a;
    } else {
      assert (a + b)[..|a + b| - 1] == a + b[..|b| - 1];
      PrunedAppend(a, b[..|b| - 1]);
    }
  }

  // ---------------------------------------------------------------------------
  // Homer and the watchers

  /** Some watcher touches Homer. */
  predicate TouchesAny(h: HomerState, ws: seq<WatcherState>) {
    exists k :: 0 <= k < |ws| && Collides(h.motion.x, h.motion.y, ws[k].motion.x, ws[k].motion.y)
  }

  /**
   * At most one bump per frame: Homer ends the watcher pass bumped once
   * exactly when it was not invincible and some watcher touches it, and
   * unchanged otherwise, however many watchers touch it.
   */
  lemma {:induction false} BumpedOnce(h: HomerState, ws: seq<WatcherState>, levelFood: int, now: int)
    requires HomerOk(h)
    ensures HitByWatchers(h, ws, levelFood, now) == if !h.invincible && TouchesAny(h, ws) then Bumped(h, now) else h
  {
    if ws != [] {
      var init := ws[..|ws| - 1];
      BumpedOnce(h, init, levelFood, now);
      var w := ws[|ws| - 1];
      assert TouchesAny(h, ws) <==> TouchesAny(h, init) || Collides(h.motion.x, h.motion.y, w.motion.x, w.motion.y) by {
        if TouchesAny(h, init) {
          var k :| 0 <= k < |init| && Collides(h.motion.x, h.motion.y, init[k].motion.x, init[k].motion.y);
          assert ws[k] == init[k];
        }
        if TouchesAny(h, ws) {
          var k :| 0 <= k < |ws| && Collides(h.motion.x, h.motion.y, ws[k].motion.x, ws[k].motion.y);
          if k < |init| {
            assert ws[k] == init[k];
          }
        }
      }
    }
  }

  // ---------------------------------------------------------------------------
  // Homer and the collectibles

  /** Homer's collision handlers do not move it and keep it reachable. */
  lemma {:induction false} TouchItemsKeepsHomer(h: HomerState, g: GateState, cs: seq<ItemState>, levelFood: int, now: int)
    requires HomerOk(h)
    ensures var r := TouchItems(h, g, cs, levelFood, now);
            HomerOk(r.0) && r.0.motion.x == h.motion.x && r.0.motion.y == h.motion.y && r.0.won == h.won
    decreases |cs|
  {
    if cs != [] {
      var (h1, g1, cs1) := TouchItems(h, g, cs[..|cs| - 1], levelFood, now);
      TouchItemsKeepsHomer(h, g, cs[..|cs| - 1], levelFood, now);
      CollisionPreservesOk(h1, OtherOf(cs[|cs| - 1]), levelFood, now);
    }
  }

  /**
   * Food is counted exactly once: over the collectible pass, what Homer's
   * food count gains is what leaves the list of present food items.
   */
  lemma {:induction false} TouchItemsFood(h: HomerState, g: GateState, cs: seq<ItemState>, levelFood: int, now: int)
    requires forall k :: 0 <= k < |cs| ==> cs[k].present
    ensures var r := TouchItems(h, g, cs, levelFood, now);
            r.0.foodCount + FoodItems(Pruned(r.2)) == h.foodCount + FoodItems(cs)
            && r.0.motion.x == h.motion.x && r.0.motion.y == h.motion.y
  {
    if cs != [] {
      var init, c := cs[..|cs| - 1], cs[|cs| - 1];
      var (h1, g1, cs1) := TouchItems(h, g, init, levelFood, now);
      TouchItemsFood(h, g, init, levelFood, now);
      var (h2, g2, c') := TouchOne(h1, g1, c, levelFood, now);
      TouchOneFood(h1, g1, c, levelFood, now);
      PrunedSnocFood(cs1, c');
      assert cs == init + [c];
      FoodItemsAppend(init, [c]);
    }
  }

  /** Pruning one more collectible adds its food only if it is still present. */
  lemma PrunedSnocFood(cs: seq<ItemState>, c: ItemState)
    ensures FoodItems(Pruned(cs + [c])) == FoodItems(Pruned(cs)) + FoodItems(if c.present then [c] else [])
  {
    assert (cs + [c])[..|cs|] == cs;
    FoodItemsAppend(Pruned(cs), if c.present then [c] else []);
  }

  /** One collectible: Homer counts a food item exactly when the item leaves the list. */
  lemma TouchOneFood(h: HomerState, g: GateState, c: ItemState, levelFood: int, now: int)
    requires c.present
    ensures var (h', _, c') := TouchOne(h, g, c, levelFood, now);
            && h'.motion.x == h.motion.x && h'.motion.y == h.motion.y
            && h'.foodCount + FoodItems(if c'.present then [c'] else []) == h.foodCount + FoodItems([c])
  {
    assert [c][..0] == [];
    var (h', _, c') := TouchOne(h, g, c, levelFood, now);
    assert [c'][..0] == [];
  }

  lemma {:induction false} FoodItemsAppend(a: seq<ItemState>, b: seq<ItemState>)
    ensures FoodItems(a + b) == FoodItems(a) + FoodItems(b)
    decreases |b|
  {
    if b == [] {
      assert a + b == a;
    } else {
      assert (a + b)[..|a + b| - 1] == a + b[..|b| - 1];
      FoodItemsAppend(a, b[..|b| - 1]);
    }
  }

  // ---------------------------------------------------------------------------
  // Watchers among themselves

  /** The effect of one bump between watchers: turn around, and a circular watcher changes side. */
  function Flipped(w: WatcherState): WatcherState {
    var turned := w.motion.(direction := TurnedAround(w.motion.direction));
    match w.patrol
    case Circular(side) => WatcherState(turned, Circular(-side))
    case Linear => w.(motion := turned)
  }

  /** How many of the first `n` other watchers touch watcher `a`. */
  function Touching(w: WatcherState, ws: seq<WatcherState>, a: int, n: nat): nat
    requires n <= |ws|
  {
    if n == 0 then 0
    else Touching(w, ws, a, n - 1)
         + (if n - 1 != a && Collides(w.motion.x, w.motion.y, ws[n - 1].motion.x, ws[n - 1].motion.y) then 1 else 0)
  }

  /**
   * A watcher bumps once per other watcher it touches, so it ends the pass
   * turned around exactly when an odd number of other watchers touch it;
   * bumps never move it.
   */
  lemma {:induction false} BumpParity(w: WatcherState, ws: seq<WatcherState>, a: int, n: nat)
    requires n <= |ws| && WatcherOk(w)
    ensures BumpedBy(w, ws, a, n) == if Touching(w, ws, a, n) % 2 == 1 then Flipped(w) else w
  {
    if n > 0 {
      BumpParity(w, ws, a, n - 1);
      CollidedTwice(w, ws[n - 1].motion.x, ws[n - 1].motion.y);
    }
  }

  /** A lone watcher is never tested against itself and so keeps its state. */
  lemma LoneWatcher(w: WatcherState)
    requires WatcherOk(w)
    ensures WatchersCollided([w]) == [w]
  {
    BumpParity(w, [w], 0, 1);
    assert Touching(w, [w], 0, 1) == 0;
  }

  /** Bumps between watchers keep every watcher in place and reachable. */
  lemma WatchersCollidedOk(ws: seq<WatcherState>)
    requires forall k :: 0 <= k < |ws| ==> WatcherOk(ws[k])
    ensures var r := WatchersCollided(ws);
            forall a :: 0 <= a < |ws| ==>
              WatcherOk(r[a]) && r[a].motion == ws[a].motion.(direction := r[a].motion.direction)
  {
    forall a | 0 <= a < |ws|
      ensures var r := WatchersCollided(ws)[a];
              WatcherOk(r) && r.motion == ws[a].motion.(direction := r.motion.direction)
    {
      BumpParity(ws[a], ws, a, |ws|);
    }
  }

  // ---------------------------------------------------------------------------
  // The whole frame

  /** Every collectible of the level is present, and Homer has counted the food that is gone. */
  predicate FoodBalanced(p: Population)
    requires |p.homers| > 0
  {
    && (forall k :: 0 <= k < |p.collectibles| ==> p.collectibles[k].present)
    && p.homers[0].foodCount + FoodItems(p.collectibles) == p.foodTotal
  }

  /** A freshly set up level is balanced: nothing eaten, all food present. */
  lemma PopulateBalanced(m: Map)
    requires Playable(m)
    ensures Ready(Populate(m)) && FoodBalanced(Populate(m))
  {
    PlacementsRecognised(m, |m|);
    var ps := Placements(m, |m|);
    PopulatedHomers(ps);
    PopulatedWatchers(ps);
    var p := Populate(m);
    forall k | 0 <= k < |p.watchers|
      ensures WatcherOk(p.watchers[k])
    {
      var w := Where(ps, CircularSymbols + LinearSymbols);
      EncodeDecodedWatcher(w[k].1);
    }
  }

  /**
   * Every frame keeps the objects ready and the food balanced: food is
   * counted once and removed once, and a restart starts the count afresh.
   */
  lemma FramePreservesFood(p: Population, m: Map, held: set<int>, now: int)
    requires Playable(m) && Ready(p) && FoodBalanced(p)
    ensures var r := Frame(p, m, held, now).0;
            Ready(r) && FoodBalanced(r)
  {
    PopulateBalanced(m);
    var q := if AnyRestart(p) then Populate(m) else MoveAll(p, m, held);
    if !AnyRestart(p) {
      MoveAllReady(p, m, held);
    }
    CollideKeepsBalance(q, now);
  }

  /** The collision pass keeps the objects ready and the food balanced. */
  lemma CollideKeepsBalance(q: Population, now: int)
    requires Ready(q) && FoodBalanced(q)
    ensures Ready(Collide(q, now).0) && FoodBalanced(Collide(q, now).0)
  {
    var h0 := HitByWatchers(q.homers[0], q.watchers, q.foodTotal, now);
    BumpedOnce(q.homers[0], q.watchers, q.foodTotal, now);
    CollisionPreservesOk(q.homers[0], WatcherAt(0, 0), q.foodTotal, now);
    assert HomerOk(h0) && h0.foodCount == q.homers[0].foodCount;
    var (h1, g1, cs1) := TouchItems(h0, q.gates[0], q.collectibles, q.foodTotal, now);
    TouchItemsFood(h0, q.gates[0], q.collectibles, q.foodTotal, now);
    TouchItemsKeepsHomer(h0, q.gates[0], q.collectibles, q.foodTotal, now);
    var gate := GateAt(q.gates[0].x, q.gates[0].y);
    CollisionPreservesOk(h1, gate, q.foodTotal, now);
    PrunedFilter(cs1);
    WatchersCollidedOk(q.watchers);
    var r := Collide(q, now).0;
    forall k | 0 <= k < |r.collectibles|
      ensures r.collectibles[k].present
    {
      assert r.collectibles[k] in Pruned(cs1);
    }
  }

  /**
   * Homer wins only with all the food eaten: when the frame schedules the
   * completion, Homer has won and no food is left in the level.
   */
  lemma WinNeedsAllFood(p: Population, m: Map, held: set<int>, now: int)
    requires Playable(m) && Ready(p) && FoodBalanced(p)
    ensures var (r, complete) := Frame(p, m, held, now);
            complete ==> |r.homers| > 0 && r.homers[0].won && FoodItems(r.collectibles) == 0
  {
    PopulateBalanced(m);
    var q := if AnyRestart(p) then Populate(m) else MoveAll(p, m, held);
    if !AnyRestart(p) {
      MoveAllBalanced(p, m, held);
    }
    CollideWin(q, now);
  }

  /** Moving keeps the objects ready: every Homer and every watcher stays in a reachable state. */
  lemma MoveAllReady(p: Population, m: Map, held: set<int>)
    requires WellFormed(m) && Ready(p)
    ensures Ready(MoveAll(p, m, held))
  {
    var q := MoveAll(p, m, held);
    forall k | 0 <= k < |p.homers|
      ensures HomerOk(q.homers[k])
    {
      UpdatePreservesOk(p.homers[k], held, m);
    }
    forall k | 0 <= k < |p.watchers|
      ensures WatcherOk(q.watchers[k])
    {
      WatcherUpdatedOk(m, p.watchers[k]);
    }
  }

  /** Moving keeps every Homer's food count and the collectibles. */
  lemma MoveAllBalanced(p: Population, m: Map, held: set<int>)
    requires WellFormed(m) && Ready(p) && FoodBalanced(p)
    ensures |MoveAll(p, m, held).homers| > 0 && FoodBalanced(MoveAll(p, m, held))
  {
  }

  /** The collision pass schedules the completion only when Homer wins with all food eaten. */
  lemma CollideWin(q: Population, now: int)
    requires |q.homers| > 0 && |q.gates| > 0 && HomerOk(q.homers[0]) && FoodBalanced(q)
    ensures var (r, complete) := Collide(q, now);
            complete ==> |r.homers| > 0 && r.homers[0].won && FoodItems(r.collectibles) == 0
  {
    var h0 := HitByWatchers(q.homers[0], q.watchers, q.foodTotal, now);
    BumpedOnce(q.homers[0], q.watchers, q.foodTotal, now);
    TouchItemsFood(h0, q.gates[0], q.collectibles, q.foodTotal, now);
  }
}
