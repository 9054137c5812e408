/**
 * The Level state: the map, the objects by group, the food total, the
 * pause flag and the clock's pending events. Level.update is proved
 * against the pure frame specification, setup_objects against Populate.
 */
module Levels {
  import opened Wrappers
  import opened Grid
  import opened Entities
  import opened Items
  import opened Player
  import opened Watchers
  import opened Setup
  import opened Frames
  import opened Menus
  import opened Clock

  /** The states of a group of Homers. */
  function HomerStates(hs: seq<Homer>): (r: seq<HomerState>)
    reads set h | h in hs, set h | h in hs :: h.body
    ensures |r| == |hs| && forall k :: 0 <= k < |hs| ==> r[k] == hs[k].State()
  {
    seq(|hs|, k requires 0 <= k < |hs| reads set h | h in hs, set h | h in hs :: h.body => hs[k].State())
  }

  /** The states of a group of watchers. */
  function WatcherStates(ws: seq<Watcher>): (r: seq<WatcherState>)
    reads set w | w in ws, set w | w in ws :: w.body
    ensures |r| == |ws| && forall k :: 0 <= k < |ws| ==> r[k] == ws[k].State()
  {
    seq(|ws|, k requires 0 <= k < |ws| reads set w | w in ws, set w | w in ws :: w.body => ws[k].State())
  }

  /** The states of the gates. */
  function GateStates(gs: seq<Gate>): (r: seq<GateState>)
    reads set g | g in gs
    ensures |r| == |gs| && forall k :: 0 <= k < |gs| ==> r[k] == gs[k].State()
  {
    seq(|gs|, k requires 0 <= k < |gs| reads set g | g in gs => gs[k].State())
  }

  /** The states of the collectibles. */
  function ItemStates(cs: seq<Collectible>): (r: seq<ItemState>)
    reads set c | c in cs
    ensures |r| == |cs| && forall k :: 0 <= k < |cs| ==> r[k] == cs[k].State()
  {
    seq(|cs|, k requires 0 <= k < |cs| reads set c | c in cs => cs[k].State())
  }

  /** The moving parts of a group of Homers. */
  function HomerBodies(hs: seq<Homer>): (r: seq<Mover>)
    ensures |r| == |hs| && forall k :: 0 <= k < |hs| ==> r[k] == hs[k].body
  {
    seq(|hs|, k requires 0 <= k < |hs| => hs[k].body)
  }

  /** The moving parts of a group of watchers. */
  function WatcherBodies(ws: seq<Watcher>): (r: seq<Mover>)
    ensures |r| == |ws| && forall k :: 0 <= k < |ws| ==> r[k] == ws[k].body
  {
    seq(|ws|, k requires 0 <= k < |ws| => ws[k].body)
  }

  // Each group's states change only where its objects do.

  twostate lemma HomersFramed(hs: seq<Homer>)
    requires forall k :: 0 <= k < |hs| ==> unchanged(hs[k], hs[k].body)
    ensures HomerStates(hs) == old(HomerStates(hs))
  {
  }

  twostate lemma WatchersFramed(ws: seq<Watcher>)
    requires forall k :: 0 <= k < |ws| ==> unchanged(ws[k], ws[k].body)
    ensures WatcherStates(ws) == old(WatcherStates(ws))
  {
  }

  twostate lemma GatesFramed(gs: seq<Gate>)
    requires forall k :: 0 <= k < |gs| ==> unchanged(gs[k])
    ensures GateStates(gs) == old(GateStates(gs))
  {
  }

  twostate lemma ItemsFramed(cs: seq<Collectible>)
    requires forall k :: 0 <= k < |cs| ==> unchanged(cs[k])
    ensures ItemStates(cs) == old(ItemStates(cs))
  {
  }

  /** The completion a frame schedules, as a pending deadline: one when the flag is set, none otherwise. */
  function Scheduled(complete: bool, now: int): (r: seq<int>)
    ensures |r| <= 1 && (complete <==> r == [now + CompletionDelay])
  {
    if complete then [now + CompletionDelay] else []
  }

  /** The keys Level.on_key_press tells apart. */
  datatype KeyPress = PauseKey | EscapeKey | OtherKey

  class Level {
    const grid: Map
    var foodTotal: int
    var paused: bool
    /** The clock, in frames. */
    var now: int
    /** The frames at which the scheduled Level.complete calls are due. */
    var completions: seq<int>
    var homers: seq<Homer>
    var watchers: seq<Watcher>
    var gates: seq<Gate>
    var collectibles: seq<Collectible>
    var bricks: seq<Cell>

    /** Every object of the level, with the moving part of each Homer and watcher. */
    ghost var Repr: set<object>

    /** Every object of the groups is in Repr, and no two entries of the groups share an object. */
    ghost predicate Owned()
      reads this`homers, this`watchers, this`gates, this`collectibles, this`Repr
    {
      && this !in Repr
      && (forall a :: 0 <= a < |homers| ==> homers[a] in Repr && homers[a].body in Repr)
      && (forall a :: 0 <= a < |watchers| ==> watchers[a] in Repr && watchers[a].body in Repr)
      && (forall a :: 0 <= a < |gates| ==> gates[a] in Repr)
      && (forall a :: 0 <= a < |collectibles| ==> collectibles[a] in Repr)
      && (forall a, b :: 0 <= a < |homers| && 0 <= b < |homers| && a != b ==> homers[a].body != homers[b].body)
      && (forall a, b :: 0 <= a < |watchers| && 0 <= b < |watchers| && a != b ==> watchers[a].body != watchers[b].body)
      && (forall a, b :: 0 <= a < |homers| && 0 <= b < |watchers| ==> homers[a].body != watchers[b].body)
      && (forall a, b :: 0 <= a < |gates| && 0 <= b < |gates| && a != b ==> gates[a] != gates[b])
      && (forall a, b :: 0 <= a < |collectibles| && 0 <= b < |collectibles| && a != b ==> collectibles[a] != collectibles[b])
    }

    /** The level's objects as values. */
    function Contents(): Population
      requires Owned()
      reads this`homers, this`watchers, this`gates, this`collectibles, this`bricks, this`foodTotal, this`Repr, Repr
    {
      Population(HomerStates(homers), WatcherStates(watchers), GateStates(gates),
                 ItemStates(collectibles), bricks, foodTotal)
    }

    /** A level in play: its objects are ready for an update and the food is balanced. */
    ghost predicate Valid()
      reads this`homers, this`watchers, this`gates, this`collectibles, this`bricks, this`foodTotal, this`Repr, Repr
    {
      Owned() && Playable(grid) && Ready(Contents()) && FoodBalanced(Contents())
    }

    /** Level.__init__ at frame `now`: the objects are set up from the map, the level runs. */
    constructor (m: Map, now: int)
      requires Playable(m)
      ensures Valid() && Contents() == Populate(m) && grid == m
      ensures !paused && this.now == now && completions == []
    {
      grid := m;
      this.now := now;
      paused := false;
      completions := [];
      homers, watchers, gates, collectibles, bricks := [], [], [], [], [];
      foodTotal := 0;
      Repr := {};
      new;
      SetupObjects();
      PopulateBalanced(m);
    }

    /**
     * Level.update at the current frame with the keys `held`. A paused level
     * does nothing; otherwise every object moves, the level is set up again
     * if a Homer asked for it, and the collision pass runs. A completion that
     * Homer schedules at the gate joins the pending completions.
     */
    method Update(held: set<int>)
      requires Valid()
      modifies this`homers, this`watchers, this`gates, this`collectibles, this`bricks, this`foodTotal
      modifies this`Repr, this`completions, Repr
      ensures Valid() && now == old(now) && paused == old(paused)
      ensures old(paused) ==> Contents() == old(Contents()) && completions == old(completions)
      ensures !old(paused) ==> Contents() == Frame(old(Contents()), grid, held, now).0
      ensures !old(paused) ==> completions == old(completions) + Scheduled(Frame(old(Contents()), grid, held, now).1, now)
    {
      if !paused {
        Run(held);
      }
    }

    /** Level.update of a level that is not paused: one frame, and the completion it schedules. */
    method Run(held: set<int>)
      requires Valid()
      modifies this`homers, this`watchers, this`gates, this`collectibles, this`bricks, this`foodTotal
      modifies this`Repr, this`completions, Repr
      ensures Valid() && Contents() == Frame(old(Contents()), grid, held, now).0
      ensures completions == old(completions) + Scheduled(Frame(old(Contents()), grid, held, now).1, now)
    {
      var complete := Step(held);
      if complete {
        ScheduleCompletion();
      }
    }

    /** Homer's schedule_once of Level.complete, due CompletionDelay frames from now. */
    method ScheduleCompletion()
      requires Valid()
      modifies this`completions
      ensures Valid() && Contents() == old(Contents())
      ensures completions == old(completions) + [now + CompletionDelay]
    {
      completions := completions + [now + CompletionDelay];
    }

    /**
     * Level.on_key_press: P toggles the pause, Escape leaves for the menu
     * (`leave`), any other key does nothing.
     */
    method OnKeyPress(key: KeyPress) returns (leave: bool)
      modifies this`paused
      ensures leave <==> key.EscapeKey?
      ensures paused == (if key.PauseKey? then !old(paused) else old(paused))
    {
      leave := false;
      match key
      case PauseKey =>
        paused := !paused;
      case EscapeKey =>
        leave := true;
      case OtherKey =>
    }

    /** Level.complete: the menu moves its selection to the next level. */
    method Complete(menu: Menu)
      requires menu.Valid()
      modifies menu, menu.items
      ensures menu.Valid() && menu.items == old(menu.items)
      ensures menu.selectedI == Selected(old(menu.selectedI), |menu.items|, 1)
    {
      menu.Select(1);
    }

    /**
     * One tick of the game clock: it reaches the next frame and fires every
     * scheduled call that is due, end_invincibility on the Homers,
     * stop_ringing on the bells and Level.complete on the menu.
     */
    method Tick(menu: Menu)
      requires Valid() && menu.Valid()
      requires menu !in Repr && forall k :: 0 <= k < |menu.items| ==> menu.items[k] !in Repr
      modifies this`now, this`completions, Repr, menu, menu.items
      ensures Valid() && now == old(now) + 1 && Contents() == Ticked(old(Contents()), now)
      ensures completions == Pending(old(completions), now)
      ensures menu.Valid() && menu.items == old(menu.items)
      ensures menu.selectedI == SelectedDown(old(menu.selectedI), |menu.items|, DueCount(old(completions), now))
    {
      now := now + 1;
      FireDueCalls(menu);
    }

    /** The calls due at the current frame: first those on the level's objects, then the completions. */
    method FireDueCalls(menu: Menu)
      requires Valid() && menu.Valid()
      requires menu !in Repr && forall k :: 0 <= k < |menu.items| ==> menu.items[k] !in Repr
      modifies this`completions, Repr, menu, menu.items
      ensures Valid() && Contents() == Ticked(old(Contents()), now)
      ensures completions == Pending(old(completions), now)
      ensures menu.Valid() && menu.items == old(menu.items)
      ensures menu.selectedI == SelectedDown(old(menu.selectedI), |menu.items|, DueCount(old(completions), now))
    {
      TickObjects(menu);
      ghost var q := Contents();
      FireCompletions(menu);
      assert Contents() == q;
    }

    /** The calls the clock fires on the level's objects at the current frame. */
    method TickObjects(ghost menu: Menu)
      requires Valid() && menu.Valid()
      requires menu !in Repr && forall k :: 0 <= k < |menu.items| ==> menu.items[k] !in Repr
      modifies Repr
      ensures Valid() && Contents() == Ticked(old(Contents()), now)
      ensures menu.Valid() && menu.items == old(menu.items) && menu.selectedI == old(menu.selectedI)
    {
      ghost var p := Contents();
      TickHomers();
      TickItems();
      assert HomerStates(homers) == Ticked(p, now).homers;
      assert ItemStates(collectibles) == Ticked(p, now).collectibles;
      assert WatcherStates(watchers) == p.watchers;
      assert GateStates(gates) == p.gates;
      TickedKeepsLevel(p, now);
    }

    /** end_invincibility on every Homer whose call is due. */
    method TickHomers()
      requires Owned()
      modifies homers
      ensures forall k :: 0 <= k < |homers| ==> homers[k].State() == HomerTicked(old(homers[k].State()), now)
      ensures forall k :: 0 <= k < |watchers| ==> watchers[k].State() == old(watchers[k].State())
      ensures forall k :: 0 <= k < |gates| ==> gates[k].State() == old(gates[k].State())
      ensures forall k :: 0 <= k < |collectibles| ==> collectibles[k].State() == old(collectibles[k].State())
    {
      var i := 0;
      while i < |homers|
        invariant 0 <= i <= |homers|
        invariant forall k :: 0 <= k < i ==> homers[k].State() == HomerTicked(old(homers[k].State()), now)
        invariant forall k :: i <= k < |homers| ==> homers[k].State() == old(homers[k].State())
      {
        if Due(homers[i].invincibleUntil, now) {
          homers[i].EndInvincibility();
        }
        i := i + 1;
      }
    }

    /** stop_ringing on every bell whose call is due. */
    method TickItems()
      requires Owned()
      modifies collectibles
      ensures forall k :: 0 <= k < |collectibles| ==> collectibles[k].State() == ItemTicked(old(collectibles[k].State()), now)
      ensures forall k :: 0 <= k < |homers| ==> homers[k].State() == old(homers[k].State())
      ensures forall k :: 0 <= k < |watchers| ==> watchers[k].State() == old(watchers[k].State())
      ensures forall k :: 0 <= k < |gates| ==> gates[k].State() == old(gates[k].State())
    {
      var i := 0;
      while i < |collectibles|
        invariant 0 <= i <= |collectibles|
        invariant forall k :: 0 <= k < i ==> collectibles[k].State() == ItemTicked(old(collectibles[k].State()), now)
        invariant forall k :: i <= k < |collectibles| ==> collectibles[k].State() == old(collectibles[k].State())
      {
        if Due(collectibles[i].stopRingingAt, now) {
          collectibles[i].StopRinging();
        }
        i := i + 1;
      }
    }

    /** Level.complete for every due completion; the others stay pending and the objects are left alone. */
    method FireCompletions(menu: Menu)
      requires Valid() && menu.Valid()
      requires menu !in Repr && forall k :: 0 <= k < |menu.items| ==> menu.items[k] !in Repr
      modifies this`completions, menu, menu.items
      ensures Valid() && Contents() == old(Contents())
      ensures completions == Pending(old(completions), now)
      ensures menu.Valid() && menu.items == old(menu.items)
      ensures menu.selectedI == SelectedDown(old(menu.selectedI), |menu.items|, DueCount(old(completions), now))
    {
      completions := FireDue(completions, menu);
    }

    /** The completions `ds` at the current frame, in the order scheduled: the due ones run, the rest are returned. */
    method FireDue(ds: seq<int>, menu: Menu) returns (pending: seq<int>)
      requires menu.Valid()
      modifies menu, menu.items
      ensures pending == Pending(ds, now)
      ensures menu.Valid() && menu.items == old(menu.items)
      ensures menu.selectedI == SelectedDown(old(menu.selectedI), |menu.items|, DueCount(ds, now))
    {
      pending := [];
      var i := 0;
      while i < |ds|
        invariant 0 <= i <= |ds| && menu.Valid() && menu.items == old(menu.items)
        invariant pending == Pending(ds[..i], now)
        invariant menu.selectedI == SelectedDown(old(menu.selectedI), |menu.items|, DueCount(ds[..i], now))
      {
        assert ds[..i + 1][..i] == ds[..i];
        if ds[i] <= now {
          Complete(menu);
        } else {
          pending := pending + [ds[i]];
        }
        i := i + 1;
      }
      assert ds[..i] == ds;
    }

    /** Level.update of a running level: moving, setting up again if asked, then the collision pass. */
    method Step(held: set<int>) returns (complete: bool)
      requires Valid()
      modifies this`homers, this`watchers, this`gates, this`collectibles, this`bricks, this`foodTotal
      modifies this`Repr, Repr
      ensures Valid() && Contents() == Frame(old(Contents()), grid, held, now).0
      ensures complete == Frame(old(Contents()), grid, held, now).1
    {
      ghost var p := Contents();
      MoveOrRestart(held);
      complete := HandleCollisions();
      FramePreservesFood(p, grid, held, now);
    }

    /** The update loop of Level.update, with setup_objects run again when a Homer asks for it. */
    method MoveOrRestart(held: set<int>)
      requires Owned() && Playable(grid) && Ready(Contents())
      modifies this`homers, this`watchers, this`gates, this`collectibles, this`bricks, this`foodTotal
      modifies this`Repr, Repr
      ensures Owned() && Contents() == Prepared(old(Contents()), grid, held) && Ready(Contents())
      ensures fresh(Repr - old(Repr))
    {
      ghost var p := Contents();
      PreparedReady(p, grid, held);
      var restart := MoveObjects(held);
      if restart {
        SetupObjects();
      }
    }

    /** The update loop of Level.update: every Homer moves, then every watcher. */
    method MoveObjects(held: set<int>) returns (restart: bool)
      requires Owned() && WellFormed(grid) && Ready(Contents())
      modifies homers, HomerBodies(homers), watchers, WatcherBodies(watchers)
      ensures Owned() && restart == AnyRestart(old(Contents()))
      ensures Contents() == MoveAll(old(Contents()), grid, held)
    {
      ghost var p := Contents();
      restart := MoveHomers(held);
      MoveWatchers();
      ghost var r := MoveAll(p, grid, held);
      assert HomerStates(homers) == r.homers;
      assert WatcherStates(watchers) == r.watchers;
      assert GateStates(gates) == r.gates;
      assert ItemStates(collectibles) == r.collectibles;
    }

    /** Level.setup_objects: every group is rebuilt from the map, row by row, cell by cell. */
    method SetupObjects()
      requires Playable(grid)
      modifies this`homers, this`watchers, this`gates, this`collectibles, this`bricks, this`foodTotal, this`Repr
      ensures Owned() && Contents() == Populate(grid) && fresh(Repr)
    {
      Clear();
      ghost var p := Empty;
      var i := 0;
      while i < |grid|
        invariant 0 <= i <= |grid| && Owned() && fresh(Repr)
        invariant Contents() == p && p == RowsAdded(grid, i)
      {
        p := SetupRow(i, p);
        i := i + 1;
      }
      RowsAddedPopulate(grid);
    }

    /** The start of setup_objects: every group is emptied. */
    method Clear()
      modifies this`homers, this`watchers, this`gates, this`collectibles, this`bricks, this`foodTotal, this`Repr
      ensures Owned() && Contents() == Empty && Repr == {}
    {
      homers, watchers, gates, collectibles, bricks := [], [], [], [], [];
      foodTotal := 0;
      Repr := {};
    }

    /** The inner loop of setup_objects: the objects of row `i`, which hold `p0`, join their groups. */
    method SetupRow(i: int, ghost p0: Population) returns (ghost p: Population)
      requires Playable(grid) && 0 <= i < |grid| && Owned() && Contents() == p0 && p0 == RowsAdded(grid, i)
      modifies this`homers, this`watchers, this`gates, this`collectibles, this`bricks, this`foodTotal, this`Repr
      ensures Owned() && old(Repr) <= Repr && fresh(Repr - old(Repr))
      ensures Contents() == p && p == RowsAdded(grid, i + 1)
    {
      var row := grid[i];
      var j := 0;
      p := p0;
      while j < |row|
        invariant 0 <= j <= |row| && Owned() && old(Repr) <= Repr && fresh(Repr - old(Repr))
        invariant Contents() == p && p == RowAdded(p0, row, i, j)
      {
        p := AddCell(i, j, p0, p);
        j := j + 1;
      }
    }

    /** The scanning loop from cell `j` of row `i` to the next one. */
    method AddCell(i: int, j: int, ghost p0: Population, ghost p: Population) returns (ghost p': Population)
      requires Playable(grid) && 0 <= i < |grid| && 0 <= j < |grid[i]|
      requires Owned() && Contents() == p && p == RowAdded(p0, grid[i], i, j)
      modifies this`homers, this`watchers, this`gates, this`collectibles, this`bricks, this`foodTotal, this`Repr
      ensures Owned() && old(Repr) <= Repr && fresh(Repr - old(Repr))
      ensures Contents() == p' && p' == RowAdded(p0, grid[i], i, j + 1)
    {
      AddObject((j, i), grid[i][j]);
      p' := Added(p, (j, i), grid[i][j]);
    }

    /** The body of the scanning loop for one cell: its object joins its group. */
    method AddObject(c: Cell, symbol: char)
      requires Owned() && Recognised(symbol)
      modifies this`homers, this`watchers, this`gates, this`collectibles, this`bricks, this`foodTotal, this`Repr
      ensures Owned() && Contents() == Added(old(Contents()), c, symbol)
      ensures old(Repr) <= Repr && fresh(Repr - old(Repr))
    {
      match Decode(symbol)
      case Nothing =>
      case HomerSpawn =>
        AddHomer(c);
      case WatcherSpawn(direction, patrol) =>
        AddWatcher(c, direction, patrol);
      case BrickSpawn =>
        AddBrick(c);
      case GateSpawn =>
        AddGate(c);
      case ItemSpawn(kind) =>
        AddCollectible(kind, c);
    }

    method AddHomer(c: Cell)
      requires Owned()
      modifies this`homers, this`Repr
      ensures Owned() && Contents() == old(Contents()).(homers := old(Contents()).homers + [SpawnedHomer(c)])
      ensures old(Repr) <= Repr && fresh(Repr - old(Repr))
    {
      var h := new Homer(c);
      homers := homers + [h];
      Repr := Repr + {h, h.body};
      assert HomerStates(homers) == old(HomerStates(homers)) + [SpawnedHomer(c)];
      WatchersFramed(watchers);
      GatesFramed(gates);
      ItemsFramed(collectibles);
    }

    method AddWatcher(c: Cell, direction: int, patrol: Patrol)
      requires Owned()
      modifies this`watchers, this`Repr
      ensures Owned() && Contents() == old(Contents()).(watchers := old(Contents()).watchers + [SpawnedWatcher(c, direction, patrol)])
      ensures old(Repr) <= Repr && fresh(Repr - old(Repr))
    {
      var w := new Watcher(c, direction, patrol);
      watchers := watchers + [w];
      Repr := Repr + {w, w.body};
      assert WatcherStates(watchers) == old(WatcherStates(watchers)) + [SpawnedWatcher(c, direction, patrol)];
      HomersFramed(homers);
      GatesFramed(gates);
      ItemsFramed(collectibles);
    }

    method AddBrick(c: Cell)
      requires Owned()
      modifies this`bricks
      ensures Owned() && Contents() == old(Contents()).(bricks := old(Contents()).bricks + [c])
    {
      bricks := bricks + [c];
    }

    method AddGate(c: Cell)
      requires Owned()
      modifies this`gates, this`Repr
      ensures Owned() && Contents() == old(Contents()).(gates := old(Contents()).gates + [SpawnedGate(c)])
      ensures old(Repr) <= Repr && fresh(Repr - old(Repr))
    {
      var g := new Gate(c);
      gates := gates + [g];
      Repr := Repr + {g};
      assert GateStates(gates) == old(GateStates(gates)) + [SpawnedGate(c)];
      HomersFramed(homers);
      WatchersFramed(watchers);
      ItemsFramed(collectibles);
    }

    method AddCollectible(kind: CollectibleKind, c: Cell)
      requires Owned()
      modifies this`collectibles, this`foodTotal, this`Repr
      ensures Owned()
      ensures Contents() == old(Contents()).(collectibles := old(Contents()).collectibles + [SpawnedItem(kind, c)],
                                             foodTotal := if kind == Food then old(foodTotal) + 1 else old(foodTotal))
      ensures old(Repr) <= Repr && fresh(Repr - old(Repr))
    {
      var o := new Collectible(kind, c);
      collectibles := collectibles + [o];
      Repr := Repr + {o};
      if kind == Food {
        foodTotal := foodTotal + 1;
      }
      assert ItemStates(collectibles) == old(ItemStates(collectibles)) + [SpawnedItem(kind, c)];
      HomersFramed(homers);
      WatchersFramed(watchers);
      GatesFramed(gates);
    }

    // -------------------------------------------------------------------------
    // Level.update

    /** The update loop over the Homers; `restart` says that one of them asked for a restart. */
    method MoveHomers(held: set<int>) returns (restart: bool)
      requires Owned() && WellFormed(grid)
      requires forall k :: 0 <= k < |homers| ==> ValidDirection(homers[k].State().motion.direction)
      modifies homers, HomerBodies(homers)
      ensures forall k :: 0 <= k < |homers| ==> homers[k].State() == Updated(old(homers[k].State()), held, grid)
      ensures restart <==> exists k :: 0 <= k < |homers| && Restarts(old(homers[k].State()))
      ensures forall k :: 0 <= k < |watchers| ==> watchers[k].State() == old(watchers[k].State())
      ensures forall k :: 0 <= k < |gates| ==> gates[k].State() == old(gates[k].State())
      ensures forall k :: 0 <= k < |collectibles| ==> collectibles[k].State() == old(collectibles[k].State())
    {
      restart := false;
      var i := 0;
      while i < |homers|
        invariant 0 <= i <= |homers|
        invariant forall k :: 0 <= k < i ==> homers[k].State() == Updated(old(homers[k].State()), held, grid)
        invariant forall k :: i <= k < |homers| ==> homers[k].State() == old(homers[k].State())
        invariant restart <==> exists k :: 0 <= k < i && Restarts(old(homers[k].State()))
        invariant forall k :: 0 <= k < |watchers| ==> watchers[k].State() == old(watchers[k].State())
      {
        var r := MoveHomer(i, held);
        restart := restart || r;
        i := i + 1;
      }
    }

    /** One step of the update loop over the Homers: the others keep their states. */
    method MoveHomer(i: int, held: set<int>) returns (restart: bool)
      requires Owned() && WellFormed(grid) && 0 <= i < |homers|
      requires ValidDirection(homers[i].State().motion.direction)
      modifies homers[i], homers[i].body
      ensures homers[i].State() == Updated(old(homers[i].State()), held, grid)
      ensures restart == Restarts(old(homers[i].State()))
      ensures forall k :: 0 <= k < |homers| && k != i ==> homers[k].State() == old(homers[k].State())
      ensures forall k :: 0 <= k < |watchers| ==> watchers[k].State() == old(watchers[k].State())
    {
      restart := homers[i].Update(grid, held);
    }

    /** The update loop over the watchers. */
    method MoveWatchers()
      requires Owned() && WellFormed(grid)
      requires forall k :: 0 <= k < |watchers| ==> 0 <= watchers[k].State().motion.direction < Stay
      modifies watchers, WatcherBodies(watchers)
      ensures forall k :: 0 <= k < |watchers| ==> watchers[k].State() == WatcherUpdated(grid, old(watchers[k].State()))
      ensures forall k :: 0 <= k < |homers| ==> homers[k].State() == old(homers[k].State())
      ensures forall k :: 0 <= k < |gates| ==> gates[k].State() == old(gates[k].State())
      ensures forall k :: 0 <= k < |collectibles| ==> collectibles[k].State() == old(collectibles[k].State())
    {
      var i := 0;
      while i < |watchers|
        invariant 0 <= i <= |watchers|
        invariant forall k :: 0 <= k < i ==> watchers[k].State() == WatcherUpdated(grid, old(watchers[k].State()))
        invariant forall k :: i <= k < |watchers| ==> watchers[k].State() == old(watchers[k].State())
        invariant forall k :: 0 <= k < |homers| ==> homers[k].State() == old(homers[k].State())
      {
        watchers[i].Update(grid);
        i := i + 1;
      }
    }

    /** Homer against each watcher in turn. */
    method HitHomer()
      requires Owned() && |homers| > 0 && |gates| > 0 && HomerOk(homers[0].State())
      modifies homers[0], homers[0].body, gates[0]
      ensures homers[0].State() == HitByWatchers(old(homers[0].State()), old(WatcherStates(watchers)), foodTotal, now)
      ensures HomerOk(homers[0].State()) && gates[0].State() == old(gates[0].State())
    {
      ghost var ws := WatcherStates(watchers);
      ghost var h := homers[0].State();
      var i := 0;
      while i < |watchers|
        invariant 0 <= i <= |watchers|
        invariant homers[0].State() == h && h == HitByWatchers(old(homers[0].State()), ws[..i], foodTotal, now)
        invariant HomerOk(h) && gates[0].State() == old(gates[0].State())
        invariant forall k :: 0 <= k < |watchers| ==> watchers[k].State() == ws[k]
      {
        var w := watchers[i];
        var _ := homers[0].HandleCollision(WatcherAt(w.body.x, w.body.y), gates[0], foodTotal, now);
        CollisionPreservesOk(h, WatcherAt(w.body.x, w.body.y), foodTotal, now);
        assert ws[..i + 1][..i] == ws[..i];
        h := Collided(h, WatcherAt(w.body.x, w.body.y), foodTotal, now);
        i := i + 1;
      }
      assert ws[..|watchers|] == ws;
    }

    /** Homer and each collectible in turn: Homer's handler, then the collectible's. */
    method TouchCollectibles()
      requires Owned() && |homers| > 0 && |gates| > 0 && HomerOk(homers[0].State())
      modifies homers[0], homers[0].body, gates[0], collectibles
      ensures (homers[0].State(), gates[0].State(), ItemStates(collectibles))
              == TouchItems(old(homers[0].State()), old(gates[0].State()), old(ItemStates(collectibles)), foodTotal, now)
      ensures HomerOk(homers[0].State())
    {
      ghost var cs0 := ItemStates(collectibles);
      ghost var h0, g0 := homers[0].State(), gates[0].State();
      ghost var cs := [];
      ghost var t := TouchItems(h0, g0, cs0[..0], foodTotal, now);
      var i := 0;
      while i < |collectibles|
        invariant 0 <= i <= |collectibles|
        invariant t == TouchItems(h0, g0, cs0[..i], foodTotal, now)
        invariant homers[0].State() == t.0 && gates[0].State() == t.1 && cs == t.2
        invariant HomerOk(homers[0].State()) && |cs| == i
        invariant forall k :: 0 <= k < i ==> collectibles[k].State() == cs[k]
        invariant forall k :: i <= k < |collectibles| ==> collectibles[k].State() == cs0[k]
      {
        cs := TouchNext(i, h0, g0, cs0, cs);
        t := TouchItems(h0, g0, cs0[..i + 1], foodTotal, now);
        i := i + 1;
      }
      assert cs0[..|collectibles|] == cs0;
      assert ItemStates(collectibles) == cs;
    }

    /** The collectible pass from `i` to `i + 1`, told the states `cs` the first `i` collectibles now have. */
    method TouchNext(i: int, ghost h0: HomerState, ghost g0: GateState, ghost cs0: seq<ItemState>, ghost cs: seq<ItemState>)
      returns (ghost cs': seq<ItemState>)
      requires Owned() && |homers| > 0 && |gates| > 0 && 0 <= i < |collectibles| == |cs0|
      requires HomerOk(homers[0].State()) && collectibles[i].State() == cs0[i]
      requires (homers[0].State(), gates[0].State(), cs) == TouchItems(h0, g0, cs0[..i], foodTotal, now)
      modifies homers[0], homers[0].body, gates[0], collectibles[i]
      ensures (homers[0].State(), gates[0].State(), cs') == TouchItems(h0, g0, cs0[..i + 1], foodTotal, now)
      ensures HomerOk(homers[0].State()) && cs' == cs + [collectibles[i].State()]
      ensures forall k :: 0 <= k < |collectibles| && k != i ==> collectibles[k].State() == old(collectibles[k].State())
    {
      CollisionPreservesOk(homers[0].State(), OtherOf(cs0[i]), foodTotal, now);
      TouchItemsStep(h0, g0, cs0, i, foodTotal, now);
      TouchCollectible(i);
      cs' := cs + [collectibles[i].State()];
    }

    /** One step of the collectible pass; the other collectibles keep their states. */
    method TouchCollectible(i: int)
      requires Owned() && |homers| > 0 && |gates| > 0 && 0 <= i < |collectibles|
      requires ValidDirection(homers[0].State().motion.direction)
      modifies homers[0], homers[0].body, gates[0], collectibles[i]
      ensures (homers[0].State(), gates[0].State(), collectibles[i].State())
              == TouchOne(old(homers[0].State()), old(gates[0].State()), old(collectibles[i].State()), foodTotal, now)
      ensures forall k :: 0 <= k < |collectibles| && k != i ==> collectibles[k].State() == old(collectibles[k].State())
    {
      var c := collectibles[i];
      var _ := homers[0].HandleCollision(OtherOf(c.State()), gates[0], foodTotal, now);
      c.HandleCollision(homers[0].body.x, homers[0].body.y, now);
    }

    /** Every ordered pair of watchers, a watcher never being tested against itself. */
    method CollideWatchers()
      requires Owned()
      modifies watchers, WatcherBodies(watchers)
      ensures Owned()
      ensures forall a :: 0 <= a < |watchers| ==> watchers[a].State() == WatchersCollided(old(WatcherStates(watchers)))[a]
      ensures forall k :: 0 <= k < |homers| ==> homers[k].State() == old(homers[k].State())
      ensures forall k :: 0 <= k < |gates| ==> gates[k].State() == old(gates[k].State())
      ensures forall k :: 0 <= k < |collectibles| ==> collectibles[k].State() == old(collectibles[k].State())
    {
      ghost var ws0 := WatcherStates(watchers);
      var i := 0;
      while i < |watchers|
        invariant 0 <= i <= |watchers|
        invariant forall a :: 0 <= a < i ==> watchers[a].State() == BumpedBy(ws0[a], ws0, a, |ws0|)
        invariant forall a :: i <= a < |watchers| ==> watchers[a].State() == ws0[a]
        invariant forall a :: 0 <= a < |watchers| ==> watchers[a].body.x == ws0[a].motion.x && watchers[a].body.y == ws0[a].motion.y
        invariant forall k :: 0 <= k < |homers| ==> homers[k].State() == old(homers[k].State())
      {
        CollideWatcher(i, ws0);
        i := i + 1;
      }
    }

    /** The inner loop of the watcher pass: watcher `i` against every watcher, the watchers being at the positions of `ws0`. */
    method CollideWatcher(i: int, ghost ws0: seq<WatcherState>)
      requires Owned() && 0 <= i < |watchers| == |ws0| && watchers[i].State() == ws0[i]
      requires forall a :: 0 <= a < |watchers| ==> watchers[a].body.x == ws0[a].motion.x && watchers[a].body.y == ws0[a].motion.y
      modifies watchers[i], watchers[i].body
      ensures watchers[i].State() == BumpedBy(ws0[i], ws0, i, |ws0|)
      ensures forall a :: 0 <= a < |watchers| && a != i ==> watchers[a].State() == old(watchers[a].State())
      ensures forall a :: 0 <= a < |watchers| ==> watchers[a].body.x == ws0[a].motion.x && watchers[a].body.y == ws0[a].motion.y
    {
      var j := 0;
      while j < |watchers|
        invariant 0 <= j <= |watchers|
        invariant watchers[i].State() == BumpedBy(ws0[i], ws0, i, j)
        invariant forall a :: 0 <= a < |watchers| && a != i ==> watchers[a].State() == old(watchers[a].State())
        invariant forall a :: 0 <= a < |watchers| ==> watchers[a].body.x == ws0[a].motion.x && watchers[a].body.y == ws0[a].motion.y
      {
        BumpWatcher(i, j);
        j := j + 1;
      }
    }

    /** The inner step of the watcher pass: `first` handles `second` unless they are the same watcher. */
    method BumpWatcher(i: int, j: int)
      requires Owned() && 0 <= i < |watchers| && 0 <= j < |watchers|
      modifies watchers[i], watchers[i].body
      ensures watchers[i].State() == if i == j then old(watchers[i].State())
              else WatcherCollided(old(watchers[i].State()), old(watchers[j].body.x), old(watchers[j].body.y))
      ensures forall k :: 0 <= k < |watchers| && k != i ==> watchers[k].State() == old(watchers[k].State())
    {
      if watchers[i] != watchers[j] {
        watchers[i].HandleCollision(watchers[j]);
      }
    }

    /** The removal of what Homer took: the list keeps its present collectibles, in order. */
    method RemoveTaken()
      requires Owned()
      modifies this`collectibles
      ensures Owned() && ItemStates(collectibles) == Pruned(old(ItemStates(collectibles)))
    {
      ghost var cs0 := ItemStates(collectibles);
      var kept: seq<Collectible> := [];
      var i := 0;
      while i < |collectibles|
        invariant 0 <= i <= |collectibles|
        invariant ItemStates(kept) == Pruned(cs0[..i])
        invariant forall a :: 0 <= a < |kept| ==> kept[a] in collectibles[..i]
        invariant forall a, b :: 0 <= a < |kept| && 0 <= b < |kept| && a != b ==> kept[a] != kept[b]
      {
        assert cs0[..i + 1][..i] == cs0[..i];
        if collectibles[i].present {
          kept := kept + [collectibles[i]];
        }
        i := i + 1;
      }
      assert cs0[..|collectibles|] == cs0;
      collectibles := kept;
    }

    /** Homer against the first gate; `complete` says that Level.complete is scheduled. */
    method EnterGate() returns (complete: bool)
      requires Owned() && |homers| > 0 && |gates| > 0 && HomerOk(homers[0].State())
      modifies homers[0], homers[0].body, gates[0]
      ensures homers[0].State() == Collided(old(homers[0].State()), GateAt(gates[0].x, gates[0].y), foodTotal, now)
      ensures complete == SchedulesCompletion(old(homers[0].State()), GateAt(gates[0].x, gates[0].y), foodTotal)
      ensures gates[0].State() == old(gates[0].State())
    {
      complete := homers[0].HandleCollision(GateAt(gates[0].x, gates[0].y), gates[0], foodTotal, now);
    }

    /** Homer against the watchers, each collectible in turn, then the first gate. */
    method HomerCollisions() returns (complete: bool)
      requires Owned() && |homers| > 0 && |gates| > 0 && HomerOk(homers[0].State())
      modifies homers[0], homers[0].body, gates[0], collectibles
      ensures Owned()
      ensures var q, r := old(Contents()), HomerPass(old(Contents()), now);
        Contents() == q.(homers := q.homers[0 := r.0], gates := q.gates[0 := r.1], collectibles := r.2) && complete == r.3
    {
      ghost var q := Contents();
      complete := HomerPassSteps();
      ghost var hs, gs := HomerStates(homers), GateStates(gates);
      assert hs == q.homers[0 := hs[0]];
      assert gs == q.gates[0 := gs[0]];
      assert WatcherStates(watchers) == q.watchers;
    }

    /** The three steps of HomerCollisions, in the order Level.update takes them. */
    method HomerPassSteps() returns (complete: bool)
      requires Owned() && |homers| > 0 && |gates| > 0 && HomerOk(homers[0].State())
      modifies homers[0], homers[0].body, gates[0], collectibles
      ensures (homers[0].State(), gates[0].State(), ItemStates(collectibles), complete) == HomerPass(old(Contents()), now)
    {
      HitHomer();
      complete := CollectAndEnterGate();
    }

    /** Homer against each collectible in turn, then the first gate. */
    method CollectAndEnterGate() returns (complete: bool)
      requires Owned() && |homers| > 0 && |gates| > 0 && HomerOk(homers[0].State())
      modifies homers[0], homers[0].body, gates[0], collectibles
      ensures (homers[0].State(), gates[0].State(), ItemStates(collectibles), complete)
              == CollectAndEnter(old(homers[0].State()), old(gates[0].State()), old(ItemStates(collectibles)), foodTotal, now)
    {
      TouchCollectibles();
      complete := EnterGate();
    }

    /** The collision pass of Level.update, ending with the removal of what Homer took. */
    method HandleCollisions() returns (complete: bool)
      requires Owned() && |homers| > 0 && |gates| > 0 && HomerOk(homers[0].State())
      modifies homers[0], homers[0].body, gates[0], this`collectibles, collectibles
      modifies watchers, WatcherBodies(watchers)
      ensures Owned() && (Contents(), complete) == Collide(old(Contents()), now)
    {
      complete := HomerCollisions();
      CollideAndPrune();
    }

    /** The watcher pass and the removal of taken collectibles; Homer and the gates keep their states. */
    method CollideAndPrune()
      requires Owned()
      modifies this`collectibles, watchers, WatcherBodies(watchers)
      ensures Owned()
      ensures Contents() == old(Contents()).(watchers := WatchersCollided(old(WatcherStates(watchers))),
                                             collectibles := Pruned(old(ItemStates(collectibles))))
    {
      ghost var q := Contents();
      CollideWatchers();
      ghost var ws := WatcherStates(watchers);
      assert HomerStates(homers) == q.homers;
      assert GateStates(gates) == q.gates;
      assert ItemStates(collectibles) == q.collectibles;
      assert ws == WatchersCollided(q.watchers);
      RemoveTaken();
      assert WatcherStates(watchers) == ws;
      assert HomerStates(homers) == q.homers;
      assert GateStates(gates) == q.gates;
    }
  }
}
