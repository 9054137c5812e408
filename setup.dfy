/**
 * Level.setup_objects as a specification: the map is scanned row by row
 * from the bottom, each cell left to right, and every symbol other than
 * blank and dot yields one object on its cell, in the group for its symbol.
 */
module Setup {
  import opened Grid
  import opened Entities
  import opened Items
  import opened Player
  import opened Watchers

  /** The circular watcher symbols by direction, lower case keeping the wall on the right turn. */
  const CircularSymbols: string := "urdlURDL"
  const LinearSymbols: string := "^>v<"

  /** Every object of a level, by group, and the number of food items it started with. */
  datatype Population = Population(homers: seq<HomerState>, watchers: seq<WatcherState>,
                                   gates: seq<GateState>, collectibles: seq<ItemState>,
                                   bricks: seq<Cell>, foodTotal: int)

  /** What a symbol creates. */
  datatype Spawn =
    | Nothing
    | HomerSpawn
    | WatcherSpawn(direction: int, patrol: Patrol)
    | BrickSpawn
    | ItemSpawn(kind: CollectibleKind)
    | GateSpawn

  predicate IsWatcherSymbol(symbol: char) {
    symbol in CircularSymbols || symbol in LinearSymbols
  }

  /** The symbols setup_objects knows; any other symbol makes it fail. */
  predicate Recognised(symbol: char) {
    || symbol == ' ' || symbol == '.' || symbol == 'X' || symbol == 'H'
    || symbol == '*' || symbol == '_' || symbol == '/' || symbol == 'b'
    || IsWatcherSymbol(symbol)
  }

  /** str.islower on one character of a map. */
  predicate IsLower(c: char) {
    'a' <= c <= 'z'
  }

  /** str.index: the first position of `c` in `s`. */
  function IndexOf(s: string, c: char): (k: nat)
    requires c in s
    ensures k < |s| && s[k] == c && c !in s[..k]
  {
    if s[0] == c then 0
    else
      assert s == [s[0]] + s[1..];
      var k := IndexOf(s[1..], c);
      assert s[..k + 1] == [s[0]] + s[1..][..k];
      k + 1
  }

  /** The object a map symbol stands for. */
  function Decode(symbol: char): Spawn
    requires Recognised(symbol)
  {
    if symbol in " ." then Nothing
    else if symbol in CircularSymbols then
      WatcherSpawn(IndexOf(CircularSymbols, symbol) % 4, Circular(if IsLower(symbol) then 1 else -1))
    else if symbol in LinearSymbols then WatcherSpawn(IndexOf(LinearSymbols, symbol) % 4, Linear)
    else if symbol == 'X' then BrickSpawn
    else if symbol == '*' then ItemSpawn(Food)
    else if symbol == 'H' then HomerSpawn
    else if symbol == '_' then ItemSpawn(Key)
    else if symbol == '/' then GateSpawn
    else ItemSpawn(Bell)
  }

  /** The map symbol of a watcher facing `direction` on `patrol`. */
  function WatcherSymbol(direction: int, patrol: Patrol): char
    requires 0 <= direction < Stay
  {
    match patrol
    case Linear => LinearSymbols[direction]
    case Circular(side) => if side == 1 then CircularSymbols[direction] else CircularSymbols[direction + 4]
  }

  /** Decoding the symbol of a watcher gives back its direction and patrol. */
  lemma DecodeWatcherSymbol(direction: int, patrol: Patrol)
    requires 0 <= direction < Stay && (patrol.Circular? ==> patrol.side in {-1, 1})
    ensures IsWatcherSymbol(WatcherSymbol(direction, patrol)) && Recognised(WatcherSymbol(direction, patrol))
    ensures Decode(WatcherSymbol(direction, patrol)) == WatcherSpawn(direction, patrol)
  {
    SymbolsDistinct();
    match patrol
    case Linear =>
      IndexOfDistinct(LinearSymbols, direction);
    case Circular(side) =>
      var k := if side == 1 then direction else direction + 4;
      IndexOfDistinct(CircularSymbols, k);
  }

  /** Every watcher symbol is the symbol of the watcher it decodes to. */
  lemma EncodeDecodedWatcher(symbol: char)
    requires IsWatcherSymbol(symbol)
    ensures Recognised(symbol) && Decode(symbol).WatcherSpawn? && 0 <= Decode(symbol).direction < Stay
    ensures var w := Decode(symbol);
            (w.patrol.Circular? ==> w.patrol.side in {-1, 1}) && WatcherSymbol(w.direction, w.patrol) == symbol
  {
    if symbol in CircularSymbols {
      var k := IndexOf(CircularSymbols, symbol);
      assert IsLower(symbol) <==> k < 4;
    }
  }

  /** In a string of distinct characters, str.index finds each character at its own position. */
  /** No watcher symbol is listed twice. */
  lemma SymbolsDistinct()
    ensures forall a, b :: 0 <= a < b < |CircularSymbols| ==> CircularSymbols[a] != CircularSymbols[b]
    ensures forall a, b :: 0 <= a < b < |LinearSymbols| ==> LinearSymbols[a] != LinearSymbols[b]
  {
  }

  lemma IndexOfDistinct(s: string, k: int)
    requires 0 <= k < |s| && forall a, b :: 0 <= a < b < |s| ==> s[a] != s[b]
    ensures IndexOf(s, s[k]) == k
  {
  }

  /** Level.setup_objects, one cell: the object for `symbol` joins its group. */
  function Added(p: Population, c: Cell, symbol: char): Population
    requires Recognised(symbol)
  {
    match Decode(symbol)
    case Nothing => p
    case HomerSpawn => p.(homers := p.homers + [SpawnedHomer(c)])
    case WatcherSpawn(direction, patrol) => p.(watchers := p.watchers + [SpawnedWatcher(c, direction, patrol)])
    case BrickSpawn => p.(bricks := p.bricks + [c])
    case GateSpawn => p.(gates := p.gates + [SpawnedGate(c)])
    case ItemSpawn(kind) =>
      p.(collectibles := p.collectibles + [SpawnedItem(kind, c)],
         foodTotal := if kind == Food then p.foodTotal + 1 else p.foodTotal)
  }

  /** How the Homers, gates and bricks change when one cell is added. */
  lemma AddedGroups(p: Population, c: Cell, symbol: char)
    requires Recognised(symbol)
    ensures var q := Added(p, c, symbol);
            && q.homers == p.homers + (if symbol == 'H' then [SpawnedHomer(c)] else [])
            && q.gates == p.gates + (if symbol == '/' then [SpawnedGate(c)] else [])
            && q.bricks == p.bricks + (if symbol == 'X' then [c] else [])
  {
    if symbol in " ." || IsWatcherSymbol(symbol) {
    } else if symbol in "*_b" {
    }
  }

  /** How the collectibles, the food total and the watchers change when one cell is added. */
  lemma AddedItems(p: Population, c: Cell, symbol: char)
    requires Recognised(symbol)
    ensures var q := Added(p, c, symbol);
            && q.collectibles == p.collectibles + (if symbol in "*_b" then [SpawnedItem(KindOf(symbol), c)] else [])
            && q.foodTotal == p.foodTotal + (if symbol == '*' then 1 else 0)
            && q.watchers == p.watchers + (if IsWatcherSymbol(symbol)
                                           then [SpawnedWatcher(c, Decode(symbol).direction, Decode(symbol).patrol)]
                                           else [])
  {
  }

  const Empty: Population := Population([], [], [], [], [], 0)

  /** A sequence of (cell, symbol) placements, all recognised. */
  predicate AllRecognised(ps: seq<(Cell, char)>) {
    forall k :: 0 <= k < |ps| ==> Recognised(ps[k].1)
  }

  /** The objects created by the placements `ps`, in order. */
  function Populated(ps: seq<(Cell, char)>): Population
    requires AllRecognised(ps)
  {
    if ps == [] then Empty
    else
      var q := ps[|ps| - 1];
      Added(Populated(ps[..|ps| - 1]), q.0, q.1)
  }

  /** The cells of row `i`, left to right, with their symbols. */
  function RowPlacements(row: seq<char>, i: int): (ps: seq<(Cell, char)>)
    ensures |ps| == |row| && forall j :: 0 <= j < |row| ==> ps[j] == ((j, i), row[j])
  {
    seq(|row|, j requires 0 <= j < |row| => ((j, i), row[j]))
  }

  /** The cells of the bottom `n` rows in scanning order. */
  function Placements(m: Map, n: nat): seq<(Cell, char)>
    requires n <= |m|
  {
    if n == 0 then [] else Placements(m, n - 1) + RowPlacements(m[n - 1], n - 1)
  }

  /** A map a level can be played on: full size, every symbol known, a Homer and a gate. */
  predicate Playable(m: Map) {
    && WellFormed(m)
    && (forall i, j :: 0 <= i < |m| && 0 <= j < |m[i]| ==> Recognised(m[i][j]))
    && Occurrences(m, 'H') > 0
    && Occurrences(m, '/') > 0
  }

  /**
   * Level.setup_objects on a whole map. A playable map populates at least
   * one Homer and one gate, as Level.update needs, counts every `*` cell as
   * food, and starts every collectible present and unrung.
   */
  function Populate(m: Map): (p: Population)
    requires Playable(m)
    ensures |p.homers| > 0 && |p.gates| > 0
    ensures p.foodTotal == Occurrences(m, '*') == FoodItems(p.collectibles)
    ensures forall k :: 0 <= k < |p.collectibles| ==> p.collectibles[k].present && !p.collectibles[k].rung
  {
    var ps := Placements(m, |m|);
    PlacementsRecognised(m, |m|);
    PopulatedHomers(ps);
    PopulatedGates(ps);
    PopulatedCollectibles(ps);
    PopulatedFood(ps);
    PlacementsCount(m, |m|, 'H');
    PlacementsCount(m, |m|, '/');
    PlacementsCount(m, |m|, '*');
    assert m[..|m|] == m;
    Populated(ps)
  }

  lemma {:induction false} PlacementsRecognised(m: Map, n: nat)
    requires n <= |m| && forall i, j :: 0 <= i < |m| && 0 <= j < |m[i]| ==> Recognised(m[i][j])
    ensures AllRecognised(Placements(m, n))
  {
    if n > 0 {
      PlacementsRecognised(m, n - 1);
    }
  }

  /** How many times `s` occurs in `row`. */
  function CountIn(row: seq<char>, s: char): nat {
    if row == [] then 0 else CountIn(row[..|row| - 1], s) + (if row[|row| - 1] == s then 1 else 0)
  }

  /** How many cells of the map hold `s`. */
  function Occurrences(m: Map, s: char): nat {
    if m == [] then 0 else Occurrences(m[..|m| - 1], s) + CountIn(m[|m| - 1], s)
  }

  /** The placements whose symbol is one of `symbols`, in order. */
  function Where(ps: seq<(Cell, char)>, symbols: string): seq<(Cell, char)> {
    if ps == [] then []
    else Where(ps[..|ps| - 1], symbols) + (if ps[|ps| - 1].1 in symbols then [ps[|ps| - 1]] else [])
  }

  /** How many collectibles are food. */
  function FoodItems(cs: seq<ItemState>): nat {
    if cs == [] then 0 else FoodItems(cs[..|cs| - 1]) + (if cs[|cs| - 1].kind == Food then 1 else 0)
  }

  lemma {:induction false} WhereAppend(ps: seq<(Cell, char)>, qs: seq<(Cell, char)>, symbols: string)
    ensures Where(ps + qs, symbols) == Where(ps, symbols) + Where(qs, symbols)
    decreases |qs|
  {
    if qs == [] {
      assert ps + qs == ps;
    } else {
      assert (ps + qs)[..|ps + qs| - 1] == ps + qs[..|qs| - 1];
      WhereAppend(ps, qs[..|qs| - 1], symbols);
    }
  }

  lemma {:induction false} RowCount(row: seq<char>, i: int, s: char)
    ensures |Where(RowPlacements(row, i), [s])| == CountIn(row, s)
  {
    if row != [] {
      assert RowPlacements(row, i)[..|row| - 1] == RowPlacements(row[..|row| - 1], i);
      RowCount(row[..|row| - 1], i, s);
    }
  }

  /** The placements of the whole map carry each symbol as often as the map does. */
  lemma {:induction false} PlacementsCount(m: Map, n: nat, s: char)
    requires n <= |m|
    ensures |Where(Placements(m, n), [s])| == Occurrences(m[..n], s)
  {
    if n > 0 {
      PlacementsCount(m, n - 1, s);
      WhereAppend(Placements(m, n - 1), RowPlacements(m[n - 1], n - 1), [s]);
      RowCount(m[n - 1], n - 1, s);
      assert m[..n][..n - 1] == m[..n - 1];
    }
  }

  /** There is one Homer per `H`, on its cell, in scanning order. */
  lemma {:induction false} PopulatedHomers(ps: seq<(Cell, char)>)
    requires AllRecognised(ps)
    ensures var hs, w := Populated(ps).homers, Where(ps, "H");
            |hs| == |w| && forall k :: 0 <= k < |w| ==> hs[k] == SpawnedHomer(w[k].0)
  {
    if ps != [] {
      PopulatedHomers(ps[..|ps| - 1]);
      AddedGroups(Populated(ps[..|ps| - 1]), ps[|ps| - 1].0, ps[|ps| - 1].1);
    }
  }

  /** There is one gate per `/`, on its cell, in scanning order. */
  lemma {:induction false} PopulatedGates(ps: seq<(Cell, char)>)
    requires AllRecognised(ps)
    ensures var gs, w := Populated(ps).gates, Where(ps, "/");
            |gs| == |w| && forall k :: 0 <= k < |w| ==> gs[k] == SpawnedGate(w[k].0)
  {
    if ps != [] {
      PopulatedGates(ps[..|ps| - 1]);
      AddedGroups(Populated(ps[..|ps| - 1]), ps[|ps| - 1].0, ps[|ps| - 1].1);
    }
  }

  /** The bricks are the cells of the `X` symbols, in scanning order. */
  lemma {:induction false} PopulatedBricks(ps: seq<(Cell, char)>)
    requires AllRecognised(ps)
    ensures var bs, w := Populated(ps).bricks, Where(ps, "X");
            |bs| == |w| && forall k :: 0 <= k < |w| ==> bs[k] == w[k].0
  {
    if ps != [] {
      PopulatedBricks(ps[..|ps| - 1]);
      AddedGroups(Populated(ps[..|ps| - 1]), ps[|ps| - 1].0, ps[|ps| - 1].1);
    }
  }

  /** There is one watcher per watcher symbol, on its cell, with the decoded direction and patrol. */
  lemma {:induction false} PopulatedWatchers(ps: seq<(Cell, char)>)
    requires AllRecognised(ps)
    ensures var ws, w := Populated(ps).watchers, Where(ps, CircularSymbols + LinearSymbols);
            && |ws| == |w|
            && forall k :: 0 <= k < |w| ==>
                 IsWatcherSymbol(w[k].1)
                 && ws[k] == SpawnedWatcher(w[k].0, Decode(w[k].1).direction, Decode(w[k].1).patrol)
  {
    if ps != [] {
      PopulatedWatchers(ps[..|ps| - 1]);
      AddedItems(Populated(ps[..|ps| - 1]), ps[|ps| - 1].0, ps[|ps| - 1].1);
    }
  }

  /**
   * There is one collectible per `*`, `_` and `b`, on its cell, present and
   * unrung.
   */
  lemma {:induction false} PopulatedCollectibles(ps: seq<(Cell, char)>)
    requires AllRecognised(ps)
    ensures var p, w := Populated(ps), Where(ps, "*_b");
            && |p.collectibles| == |w|
            && (forall k :: 0 <= k < |w| ==> p.collectibles[k] == SpawnedItem(KindOf(w[k].1), w[k].0))
  {
    if ps != [] {
      PopulatedCollectibles(ps[..|ps| - 1]);
      AddedItems(Populated(ps[..|ps| - 1]), ps[|ps| - 1].0, ps[|ps| - 1].1);
    }
  }

  /** The kind of collectible a symbol of "*_b" creates. */
  function KindOf(symbol: char): CollectibleKind {
    if symbol == '*' then Food else if symbol == '_' then Key else Bell
  }

  /** The food total is the number of `*` and of food items. */
  lemma {:induction false} PopulatedFood(ps: seq<(Cell, char)>)
    requires AllRecognised(ps)
    ensures var p := Populated(ps);
            p.foodTotal == |Where(ps, "*")| == FoodItems(p.collectibles)
  {
    if ps != [] {
      var p := Populated(ps[..|ps| - 1]);
      PopulatedFood(ps[..|ps| - 1]);
      var q := ps[|ps| - 1];
      AddedItems(p, q.0, q.1);
      if q.1 in "*_b" {
        assert (p.collectibles + [SpawnedItem(KindOf(q.1), q.0)])[..|p.collectibles|] == p.collectibles;
      }
    }
  }

  /** The objects of the first `j` cells of row `i` added to `p`: the scanning loop over one row. */
  function RowAdded(p: Population, row: seq<char>, i: int, j: nat): Population
    requires j <= |row| && forall k :: 0 <= k < |row| ==> Recognised(row[k])
  {
    if j == 0 then p else Added(RowAdded(p, row, i, j - 1), (j - 1, i), row[j - 1])
  }

  /** The objects of the bottom `n` rows of `m`, row after row. */
  function RowsAdded(m: Map, n: nat): Population
    requires Playable(m) && n <= |m|
  {
    if n == 0 then Empty else RowAdded(RowsAdded(m, n - 1), m[n - 1], n - 1, |m[n - 1]|)
  }

  /** Adding a row's cells one by one is populating the placements extended by that row. */
  lemma {:induction false} RowAddedPopulated(ps: seq<(Cell, char)>, row: seq<char>, i: int, j: nat)
    requires AllRecognised(ps) && j <= |row| && forall k :: 0 <= k < |row| ==> Recognised(row[k])
    ensures AllRecognised(ps + RowPlacements(row, i)[..j])
    ensures RowAdded(Populated(ps), row, i, j) == Populated(ps + RowPlacements(row, i)[..j])
  {
    var qs := ps + RowPlacements(row, i)[..j];
    if j == 0 {
      assert qs == ps;
    } else {
      RowAddedPopulated(ps, row, i, j - 1);
      var rp := RowPlacements(row, i);
      var init := ps + rp[..j - 1];
      assert rp[..j] == rp[..j - 1] + [rp[j - 1]];
      assert qs == init + [rp[j - 1]];
      PopulatedSnoc(init, (j - 1, i), row[j - 1]);
    }
  }

  /** One more placement adds its object to what the earlier ones created. */
  lemma PopulatedSnoc(ps: seq<(Cell, char)>, c: Cell, symbol: char)
    requires AllRecognised(ps) && Recognised(symbol)
    ensures AllRecognised(ps + [(c, symbol)])
    ensures Populated(ps + [(c, symbol)]) == Added(Populated(ps), c, symbol)
  {
    assert (ps + [(c, symbol)])[..|ps|] == ps;
  }

  /** The row-by-row construction is the scanning order's construction. */
  lemma {:induction false} RowsAddedPopulated(m: Map, n: nat)
    requires Playable(m) && n <= |m|
    ensures AllRecognised(Placements(m, n)) && RowsAdded(m, n) == Populated(Placements(m, n))
  {
    if n > 0 {
      RowsAddedPopulated(m, n - 1);
      var row := m[n - 1];
      var init := Placements(m, n - 1);
      RowAddedPopulated(init, row, n - 1, |row|);
      assert RowPlacements(row, n - 1)[..|row|] == RowPlacements(row, n - 1);
      assert Placements(m, n) == init + RowPlacements(row, n - 1);
      var a := RowsAdded(m, n - 1);
      assert RowsAdded(m, n) == RowAdded(a, row, n - 1, |row|);
    }
  }

  /** Level.setup_objects row by row populates the whole map. */
  lemma RowsAddedPopulate(m: Map)
    requires Playable(m)
    ensures RowsAdded(m, |m|) == Populate(m)
  {
    RowsAddedPopulated(m, |m|);
    var p := Populated(Placements(m, |m|));
    assert Populate(m) == p;
  }
}
