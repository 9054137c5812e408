/**
 * The calls the level schedules on the game clock (end_invincibility,
 * stop_ringing and Level.complete), held as the frames at which they are
 * due. A clock tick fires every call whose frame has come.
 */
module Clock {
  import opened Wrappers
  import opened Player
  import opened Items
  import opened Setup
  import opened Frames

  /** A pending call is due once the clock has reached its frame. */
  predicate Due(d: Option<int>, now: int) {
    d.Some? && d.value <= now
  }

  /** Homer at a tick: a due end_invincibility runs. */
  function HomerTicked(h: HomerState, now: int): (r: HomerState)
    ensures Due(h.invincibleUntil, now) ==> !r.invincible && r.invincibleUntil.None?
    ensures !Due(h.invincibleUntil, now) ==> r == h
    ensures r.motion == h.motion && r.foodCount == h.foodCount && r.bumpCount == h.bumpCount && r.won == h.won
  {
    if Due(h.invincibleUntil, now) then InvincibilityEnded(h) else h
  }

  /** A collectible at a tick: a due stop_ringing runs. */
  function ItemTicked(c: ItemState, now: int): (r: ItemState)
    ensures Due(c.stopRingingAt, now) ==> !r.ringing && r.stopRingingAt.None?
    ensures !Due(c.stopRingingAt, now) ==> r == c
    ensures r.kind == c.kind && r.present == c.present && r.rung == c.rung && (r.x, r.y) == (c.x, c.y)
  {
    if Due(c.stopRingingAt, now) then StoppedRinging(c) else c
  }

  /** The level's objects after the clock fires the calls due at frame `now`. */
  function Ticked(p: Population, now: int): (r: Population)
    // the watchers, gates and walls are untouched, and no object appears or disappears
    ensures r.watchers == p.watchers && r.gates == p.gates && r.bricks == p.bricks && r.foodTotal == p.foodTotal
    ensures |r.homers| == |p.homers| && |r.collectibles| == |p.collectibles|
    // nothing moves or counts differently, and no call is left due
    ensures forall k :: 0 <= k < |r.homers| ==>
              r.homers[k].motion == p.homers[k].motion && r.homers[k].foodCount == p.homers[k].foodCount
              && !Due(r.homers[k].invincibleUntil, now)
    ensures forall k :: 0 <= k < |r.collectibles| ==>
              r.collectibles[k].kind == p.collectibles[k].kind && r.collectibles[k].present == p.collectibles[k].present
              && !Due(r.collectibles[k].stopRingingAt, now)
  {
    p.(homers := seq(|p.homers|, k requires 0 <= k < |p.homers| => HomerTicked(p.homers[k], now)),
       collectibles := seq(|p.collectibles|, k requires 0 <= k < |p.collectibles| => ItemTicked(p.collectibles[k], now)))
  }

  /** The scheduled completions not yet due at frame `now`, in the order they were scheduled. */
  function Pending(ds: seq<int>, now: int): seq<int> {
    if ds == [] then []
    else Pending(ds[..|ds| - 1], now) + (if ds[|ds| - 1] <= now then [] else [ds[|ds| - 1]])
  }

  /** How many scheduled completions are due at frame `now`. */
  function DueCount(ds: seq<int>, now: int): nat {
    if ds == [] then 0
    else DueCount(ds[..|ds| - 1], now) + (if ds[|ds| - 1] <= now then 1 else 0)
  }

  /**
   * A tick splits the completions: every one either fires or stays pending,
   * the pending ones are exactly those of a later frame, and none is invented.
   */
  lemma {:induction false} PendingSplit(ds: seq<int>, now: int)
    ensures |Pending(ds, now)| + DueCount(ds, now) == |ds|
    ensures forall d :: d in Pending(ds, now) <==> d in ds && d > now
  {
    if ds != [] {
      var init := ds[..|ds| - 1];
      PendingSplit(init, now);
      assert ds == init + [ds[|ds| - 1]];
    }
  }

  /** The completions of a single frame fire together: none is due before it, all of them at it. */
  lemma {:induction false} DueCountAll(ds: seq<int>, now: int)
    requires forall k :: 0 <= k < |ds| ==> ds[k] <= now
    ensures DueCount(ds, now) == |ds| && Pending(ds, now) == []
  {
    if ds != [] {
      DueCountAll(ds[..|ds| - 1], now);
    }
  }

  /** Ending invincibility and stopping a bell change only those flags, so food is still counted the same. */
  lemma {:induction false} FoodItemsByKind(a: seq<ItemState>, b: seq<ItemState>)
    requires |a| == |b| && forall k :: 0 <= k < |a| ==> a[k].kind == b[k].kind
    ensures FoodItems(a) == FoodItems(b)
  {
    if a != [] {
      FoodItemsByKind(a[..|a| - 1], b[..|b| - 1]);
    }
  }

  /**
   * A tick keeps a running level running: Homers stay well formed, the
   * food is still balanced, nothing moves, and no call is left due.
   */
  lemma TickedKeepsLevel(p: Population, now: int)
    requires Ready(p) && FoodBalanced(p)
    ensures var r := Ticked(p, now);
      && Ready(r) && FoodBalanced(r)
      && r.watchers == p.watchers && r.gates == p.gates && r.bricks == p.bricks && r.foodTotal == p.foodTotal
      && (forall k :: 0 <= k < |r.homers| ==> r.homers[k].motion == p.homers[k].motion && !Due(r.homers[k].invincibleUntil, now))
      && (forall k :: 0 <= k < |r.collectibles| ==>
            r.collectibles[k].present && r.collectibles[k].rung == p.collectibles[k].rung
            && !Due(r.collectibles[k].stopRingingAt, now))
  {
    var r := Ticked(p, now);
    FoodItemsByKind(p.collectibles, r.collectibles);
  }

  /** A second tick at the same frame finds nothing left to fire. */
  lemma TickedSettles(p: Population, now: int)
    ensures Ticked(Ticked(p, now), now) == Ticked(p, now)
  {
    var r := Ticked(p, now);
    assert Ticked(r, now).homers == r.homers;
    assert Ticked(r, now).collectibles == r.collectibles;
  }
}
