/** The buyer pipelines for both commodities: FindPlasmiumBuyers in
    internal/kaine/plasmium.go and FindLTDBuyers in internal/kaine/ltd.go. */
module BuyerRanking {
  import opened Basics
  import opened Ordering
  import opened BuyerScores
  import BoomStations

  datatype Commodity = Plasmium | Ltd

  datatype Buyer = Buyer(station: Station, distance: real, score: real, rank: real)

  datatype SourceMap = SourceMap(system: string, pos: Point, state: string, radius: int)

  datatype MapResult = MapResult(system: string, state: string, radius: int, buyers: seq<Buyer>)

  type Distance = (Point, Point) -> real

  // ----- Maps -----

  function Radius(state: string): Option<int> {
    if state == "Fortified" then Some(20) else if state == "Stronghold" then Some(30) else None
  }

  /** The maps among the first n whose system is located and held by the right power state. */
  function SourcesTo(maps: seq<string>, coords: map<string, Point>, states: map<string, string>, n: nat)
    : (r: seq<SourceMap>)
    requires n <= |maps|
    ensures forall s | s in r :: Radius(s.state) == Some(s.radius)
  {
    if n == 0 then [] else
    var rest, m := SourcesTo(maps, coords, states, n - 1), maps[n - 1];
    var state := if m in states then states[m] else "";
    if m !in coords || Radius(state).None? then rest
    else rest + [SourceMap(m, coords[m], state, Radius(state).value)]
  }

  method FindSources(maps: seq<string>, coords: map<string, Point>, states: map<string, string>)
    returns (sources: seq<SourceMap>)
    ensures sources == SourcesTo(maps, coords, states, |maps|)
  {
    sources := [];
    for i := 0 to |maps|
      invariant sources == SourcesTo(maps, coords, states, i)
    {
      var m := maps[i];
      if m !in coords {
        continue;
      }
      var livePowerState := if m in states then states[m] else "";
      var radius := Radius(livePowerState);
      if radius.None? {
        continue;
      }
      sources := sources + [SourceMap(m, coords[m], livePowerState, radius.value)];
    }
  }

  /** A map is a source exactly when its system is located and held as Fortified, within
      20 light years, or as Stronghold, within 30. */
  lemma SourcesGrow(maps: seq<string>, coords: map<string, Point>, states: map<string, string>, n: nat)
    requires n < |maps|
    ensures SourcesTo(maps, coords, states, 0) == []
    ensures var m, front, all := maps[n], SourcesTo(maps, coords, states, n), SourcesTo(maps, coords, states, n + 1);
            if m in coords && m in states && (states[m] == "Fortified" || states[m] == "Stronghold") then
              && |all| == |front| + 1 && all[..|front|] == front
              && var src := all[|front|];
                 && src.system == m && src.pos == coords[m] && src.state == states[m]
                 && src.radius == if states[m] == "Stronghold" then 30 else 20
            else all == front
  {
  }

  // ----- Buyers of one map -----

  function Score(k: Commodity, s: Station): real {
    if k.Plasmium? then PlasmiumScore(s.platinumDemand, s.osmiumDemand, s.economies) else LtdScore(s.ltdDemand)
  }

  function Rank(k: Commodity, s: Station): real {
    if k.Plasmium? then PlasmiumRank(s, Score(k, s)) else LtdRank(s, Score(k, s))
  }

  function Price(k: Commodity, s: Station): int {
    if k.Plasmium? then Max(s.platinumPrice, s.osmiumPrice) else s.ltdPrice
  }

  predicate Near(s: Station, src: SourceMap, dist: Distance) {
    dist(src.pos, s.pos) <= src.radius as real
  }

  function StationKey(s: Station): string {
    BoomStations.Key(s.system, s.name)
  }

  /** Station i is the first near one of its key. */
  predicate FirstNear(stations: seq<Station>, src: SourceMap, dist: Distance, i: nat)
    requires i < |stations|
  {
    forall j | 0 <= j < i && Near(stations[j], src, dist) :: StationKey(stations[j]) != StationKey(stations[i])
  }

  /** Station i is listed for the map: it is near, and for LTD the first of its key. */
  predicate Listed(k: Commodity, stations: seq<Station>, src: SourceMap, dist: Distance, i: nat)
    requires i < |stations|
  {
    Near(stations[i], src, dist) && (k.Plasmium? || FirstNear(stations, src, dist, i))
  }

  function Found(k: Commodity, s: Station, src: SourceMap, dist: Distance): Buyer {
    Buyer(s, dist(src.pos, s.pos), Score(k, s), Rank(k, s))
  }

  function ListedTo(k: Commodity, stations: seq<Station>, src: SourceMap, dist: Distance, n: nat): seq<Buyer>
    requires n <= |stations|
  {
    if n == 0 then [] else
    ListedTo(k, stations, src, dist, n - 1)
    + if Listed(k, stations, src, dist, n - 1) then [Found(k, stations[n - 1], src, dist)] else []
  }

  /** The score is positive and a known price is not below 100000. */
  predicate Worthwhile(k: Commodity, b: Buyer) {
    b.score > 0.0 && !(0 < Price(k, b.station) < 100_000)
  }

  function ValidTo(k: Commodity, buyers: seq<Buyer>, n: nat): seq<Buyer>
    requires n <= |buyers|
  {
    if n == 0 then [] else ValidTo(k, buyers, n - 1) + if Worthwhile(k, buyers[n - 1]) then [buyers[n - 1]] else []
  }

  /** The valid buyers of a map, before they are ranked. */
  function Valid(k: Commodity, stations: seq<Station>, src: SourceMap, dist: Distance): seq<Buyer> {
    var listed := ListedTo(k, stations, src, dist, |stations|);
    ValidTo(k, listed, |listed|)
  }

  lemma {:induction false} ListedMembers(k: Commodity, stations: seq<Station>, src: SourceMap, dist: Distance, n: nat,
        b: Buyer)
    requires n <= |stations|
    ensures b in ListedTo(k, stations, src, dist, n)
       <==> exists i | 0 <= i < n :: Listed(k, stations, src, dist, i) && b == Found(k, stations[i], src, dist)
  {
    if n > 0 {
      ListedMembers(k, stations, src, dist, n - 1, b);
    }
  }

  lemma {:induction false} ValidMembers(k: Commodity, buyers: seq<Buyer>, n: nat, b: Buyer)
    requires n <= |buyers|
    ensures b in ValidTo(k, buyers, n) <==> b in buyers[..n] && Worthwhile(k, b)
  {
    if n > 0 {
      ValidMembers(k, buyers, n - 1, b);
      assert buyers[..n] == buyers[..n - 1] + [buyers[n - 1]];
    }
  }

  /** The buyer stands for the station, scored and ranked for the commodity, and is worth
      showing: it is in range, scores, and no known price of it is under 100000. */
  predicate Stands(k: Commodity, b: Buyer, s: Station, src: SourceMap, dist: Distance) {
    && b.station == s && b.distance == dist(src.pos, s.pos) && b.distance <= src.radius as real
    && b.score > 0.0
    && (k.Plasmium? ==>
          && b.score == PlasmiumScore(s.platinumDemand, s.osmiumDemand, s.economies)
          && b.rank == PlasmiumRank(s, b.score)
          && (s.platinumPrice > 0 || s.osmiumPrice > 0 ==> s.platinumPrice >= 100_000 || s.osmiumPrice >= 100_000))
    && (k.Ltd? ==>
          && b.score == LtdScore(s.ltdDemand) && b.rank == LtdRank(s, b.score)
          && (s.ltdPrice > 0 ==> s.ltdPrice >= 100_000))
  }

  /** A buyer is valid for a map exactly when it stands for a station worth showing, for
      LTD the first in range of its system and name. */
  lemma ValidExactly(k: Commodity, stations: seq<Station>, src: SourceMap, dist: Distance, b: Buyer)
    ensures b in Valid(k, stations, src, dist)
       <==> exists i | 0 <= i < |stations| ::
              && Stands(k, b, stations[i], src, dist)
              && (k.Ltd? ==>
                    forall j | 0 <= j < i && dist(src.pos, stations[j].pos) <= src.radius as real ::
                      stations[j].system + "|" + stations[j].name != stations[i].system + "|" + stations[i].name)
  {
    var listed := ListedTo(k, stations, src, dist, |stations|);
    ListedMembers(k, stations, src, dist, |stations|, b);
    ValidMembers(k, listed, |listed|, b);
    assert listed[..|listed|] == listed;
    forall i | 0 <= i < |stations|
      ensures Stands(k, b, stations[i], src, dist)
         <==> && Near(stations[i], src, dist) && b == Found(k, stations[i], src, dist) && Worthwhile(k, b)
    {
    }
    forall i | 0 <= i < |stations|
      ensures FirstNear(stations, src, dist, i)
         <==> forall j | 0 <= j < i && dist(src.pos, stations[j].pos) <= src.radius as real ::
                stations[j].system + "|" + stations[j].name != stations[i].system + "|" + stations[i].name
    {
    }
  }

  /** Each station is listed at most once, and each listed buyer kept at most once. */
  lemma ListsGrowByOne(k: Commodity, stations: seq<Station>, src: SourceMap, dist: Distance, n: nat, buyers: seq<Buyer>,
        m: nat)
    requires n < |stations| && m < |buyers|
    ensures var front, all := ListedTo(k, stations, src, dist, n), ListedTo(k, stations, src, dist, n + 1);
            front <= all && |all| <= |front| + 1
    ensures var front, all := ValidTo(k, buyers, m), ValidTo(k, buyers, m + 1);
            front <= all && |all| <= |front| + 1
  {
  }

  predicate Outranks(a: Buyer, b: Buyer) {
    if a.rank != b.rank then a.rank > b.rank else a.distance < b.distance
  }

  lemma OutranksIsWeak(s: seq<Buyer>)
    ensures WeakOn(Outranks, s)
  {
  }

  /** The stations within the radius, with their distance. */
  method NearStations(k: Commodity, stations: seq<Station>, src: SourceMap, dist: Distance) returns (buyers: seq<Buyer>)
    ensures |buyers| == |ListedTo(k, stations, src, dist, |stations|)|
    ensures forall i | 0 <= i < |buyers| ::
              buyers[i] == ListedTo(k, stations, src, dist, |stations|)[i].(score := 0.0, rank := 0.0)
  {
    buyers := [];
    var seen: set<string> := {};
    for i := 0 to |stations|
      invariant forall key | key in seen ::
                  exists j | 0 <= j < i :: Near(stations[j], src, dist) && StationKey(stations[j]) == key
      invariant forall j | 0 <= j < i && Near(stations[j], src, dist) :: StationKey(stations[j]) in seen
      invariant |buyers| == |ListedTo(k, stations, src, dist, i)|
      invariant forall x | 0 <= x < |buyers| ::
                  buyers[x] == ListedTo(k, stations, src, dist, i)[x].(score := 0.0, rank := 0.0)
    {
      var station := stations[i];
      var d := dist(src.pos, station.pos);
      if d <= src.radius as real {
        var stationKey := station.system + "|" + station.name;
        if k.Plasmium? || stationKey !in seen {
          buyers := buyers + [Buyer(station, d, 0.0, 0.0)];
        }
        seen := seen + {stationKey};
      }
    }
  }

  method ScoreBuyers(k: Commodity, buyers: seq<Buyer>) returns (scored: seq<Buyer>)
    ensures |scored| == |buyers|
    ensures forall i | 0 <= i < |buyers| ::
              scored[i] == buyers[i].(score := Score(k, buyers[i].station), rank := Rank(k, buyers[i].station))
  {
    scored := buyers;
    for i := 0 to |buyers|
      invariant |scored| == |buyers|
      invariant forall j | 0 <= j < i ::
                  scored[j] == buyers[j].(score := Score(k, buyers[j].station), rank := Rank(k, buyers[j].station))
      invariant forall j | i <= j < |buyers| :: scored[j] == buyers[j]
    {
      var score := Score(k, buyers[i].station);
      var rank;
      if k.Plasmium? {
        rank := CalculateRankScore(buyers[i].station, score);
      } else {
        rank := CalculateLtdRankScore(buyers[i].station, score);
      }
      scored := scored[i := scored[i].(score := score, rank := rank)];
    }
  }

  method FilterBuyers(k: Commodity, buyers: seq<Buyer>) returns (valid: seq<Buyer>)
    ensures valid == ValidTo(k, buyers, |buyers|)
  {
    valid := [];
    for i := 0 to |buyers|
      invariant valid == ValidTo(k, buyers, i)
    {
      var b := buyers[i];
      if b.score <= 0.0 {
        continue;
      }
      var bestPrice := Price(k, b.station);
      if bestPrice > 0 && bestPrice < 100_000 {
        continue;
      }
      valid := valid + [b];
    }
  }

  const SHOWN := 10

  /** What one map's list becomes. */
  function ResultOf(k: Commodity, stations: seq<Station>, src: SourceMap, dist: Distance,
        sort: seq<Buyer> -> seq<Buyer>)
    : MapResult
  {
    MapResult(src.system, src.state, src.radius, Top(sort(Valid(k, stations, src, dist)), SHOWN))
  }

  lemma ResultIsBest(k: Commodity, stations: seq<Station>, src: SourceMap, dist: Distance,
        sort: seq<Buyer> -> seq<Buyer>)
    requires Sorts(sort, Outranks)
    ensures BestOf(Outranks, Valid(k, stations, src, dist), ResultOf(k, stations, src, dist, sort).buyers, SHOWN)
  {
    var valid := Valid(k, stations, src, dist);
    assert SortsOne(sort, Outranks, valid);
    OutranksIsWeak(valid);
    TopIsBest(Outranks, valid, sort(valid), SHOWN);
  }

  method MapBuyers(k: Commodity, stations: seq<Station>, src: SourceMap, dist: Distance, sort: seq<Buyer> -> seq<Buyer>)
    returns (result: MapResult)
    ensures result == ResultOf(k, stations, src, dist, sort)
  {
    var buyers := NearStations(k, stations, src, dist);
    buyers := ScoreBuyers(k, buyers);
    ScoredIsListed(k, stations, src, dist, |stations|, buyers);
    var validBuyers := FilterBuyers(k, buyers);
    var sorted := sort(validBuyers);
    if |sorted| > SHOWN {
      sorted := sorted[..SHOWN];
    }
    result := MapResult(src.system, src.state, src.radius, sorted);
  }

  lemma ScoredIsListed(k: Commodity, stations: seq<Station>, src: SourceMap, dist: Distance, n: nat, scored: seq<Buyer>)
    requires n <= |stations| && |scored| == |ListedTo(k, stations, src, dist, n)|
    requires forall i | 0 <= i < |scored| ::
               var b := ListedTo(k, stations, src, dist, n)[i];
               scored[i] == b.(score := Score(k, b.station), rank := Rank(k, b.station))
    ensures scored == ListedTo(k, stations, src, dist, n)
  {
    forall i | 0 <= i < |scored|
      ensures scored[i] == ListedTo(k, stations, src, dist, n)[i]
    {
      var b := ListedTo(k, stations, src, dist, n)[i];
      ListedMembers(k, stations, src, dist, n, b);
    }
  }

  // ----- The order of maps -----

  function TopRank(m: MapResult): real {
    if m.buyers != [] then m.buyers[0].rank else 0.0
  }

  predicate MapBefore(k: Commodity, a: MapResult, b: MapResult) {
    if TopRank(a) != TopRank(b) then TopRank(a) > TopRank(b)
    else if |a.buyers| != |b.buyers| then |a.buyers| > |b.buyers|
    else if k.Plasmium? && a.state != b.state then a.state == "Stronghold"
    else LexLess(a.system, b.system)
  }

  function MapOrder(k: Commodity): (MapResult, MapResult) -> bool {
    (a: MapResult, b: MapResult) => MapBefore(k, a, b)
  }

  /** No two different states other than Stronghold. */
  predicate OneOtherState(results: seq<MapResult>) {
    forall a, b | a in results && b in results && a.state != b.state ::
      a.state == "Stronghold" || b.state == "Stronghold"
  }

  predicate SameKey(k: Commodity, a: MapResult, b: MapResult) {
    TopRank(a) == TopRank(b) && |a.buyers| == |b.buyers| && (k.Plasmium? ==> a.state == b.state) && a.system == b.system
  }

  lemma TiedIsSameKey(k: Commodity, a: MapResult, b: MapResult)
    requires k.Plasmium? && a.state != b.state ==> a.state == "Stronghold" || b.state == "Stronghold"
    ensures Tied(MapOrder(k), a, b) <==> SameKey(k, a, b)
  {
    LexTotal(a.system, b.system);
  }

  lemma MapBeforeTransitive(k: Commodity, a: MapResult, b: MapResult, c: MapResult)
    requires MapBefore(k, a, b) && MapBefore(k, b, c)
    requires k.Plasmium? ==> OneOtherState([a, b, c])
    ensures MapBefore(k, a, c)
  {
    assert a in [a, b, c] && b in [a, b, c] && c in [a, b, c];
    if LexLess(a.system, b.system) && LexLess(b.system, c.system) {
      LexTransitive(a.system, b.system, c.system);
    }
  }

  lemma MapOrderIsWeak(k: Commodity, results: seq<MapResult>)
    requires k.Plasmium? ==> OneOtherState(results)
    ensures WeakOn(MapOrder(k), results)
  {
    var less := MapOrder(k);
    forall a | a in results
      ensures !less(a, a)
    {
      LexTotal(a.system, a.system);
    }
    forall a, b, c | a in results && b in results && c in results && less(a, b) && less(b, c)
      ensures less(a, c)
    {
      MapBeforeTransitive(k, a, b, c);
    }
    forall a, b, c | a in results && b in results && c in results && Tied(less, a, b) && Tied(less, b, c)
      ensures Tied(less, a, c)
    {
      TiedIsSameKey(k, a, b);
      TiedIsSameKey(k, b, c);
      TiedIsSameKey(k, a, c);
    }
  }

  /** For a set of power states, the plasmium comparator orders every list of results
      in those states exactly when at most one of them is not Stronghold. */
  lemma StatesExactly(states: set<string>)
    ensures (forall results: seq<MapResult> | InStates(results, states) :: WeakOn(MapOrder(Plasmium), results))
       <==> (forall x, y | x in states && y in states && x != y :: x == "Stronghold" || y == "Stronghold")
  {
    if x, y :| x in states && y in states && x != y && x != "Stronghold" && y != "Stronghold" {
      TwoOtherStatesFail(x, y);
      assert InStates(Clash(x, y), states);
    } else {
      forall results: seq<MapResult> | InStates(results, states)
        ensures WeakOn(MapOrder(Plasmium), results)
      {
        MapOrderIsWeak(Plasmium, results);
      }
    }
  }

  predicate InStates(results: seq<MapResult>, states: set<string>) {
    forall m | m in results :: m.state in states
  }

  function Clash(x: string, y: string): seq<MapResult> {
    [MapResult("a", x, 20, []), MapResult("a", y, 20, []), MapResult("b", x, 20, [])]
  }

  /** Two of them tie with each other whatever their names, so ties do not carry over. */
  lemma TwoOtherStatesFail(x: string, y: string)
    requires x != y && x != "Stronghold" && y != "Stronghold"
    ensures !WeakOn(MapOrder(Plasmium), Clash(x, y))
  {
    var s, less := Clash(x, y), MapOrder(Plasmium);
    assert s[0] in s && s[1] in s && s[2] in s;
    assert Tied(less, s[0], s[1]) && Tied(less, s[1], s[2]);
    assert LexLess("a", "b");
    assert !Tied(less, s[0], s[2]);
  }

  // ----- The pipeline -----

  function BuyersTo(results: seq<MapResult>, n: nat): nat
    requires n <= |results|
  {
    if n == 0 then 0 else BuyersTo(results, n - 1) + |results[n - 1].buyers|
  }

  function Without(s: seq<MapResult>, j: nat): seq<MapResult>
    requires j < |s|
  {
    s[..j] + s[j + 1..]
  }

  lemma {:induction false} BuyersBefore(a: seq<MapResult>, b: seq<MapResult>, n: nat)
    requires n <= |a| && n <= |b| && a[..n] == b[..n]
    ensures BuyersTo(a, n) == BuyersTo(b, n)
  {
    if n > 0 {
      assert a[n - 1] == a[..n][n - 1] == b[..n][n - 1] == b[n - 1];
      assert a[..n - 1] == a[..n][..n - 1] == b[..n][..n - 1] == b[..n - 1];
      BuyersBefore(a, b, n - 1);
    }
  }

  lemma {:induction false} BuyersSplit(s: seq<MapResult>, j: nat, n: nat)
    requires j < n <= |s|
    ensures BuyersTo(s, n) == BuyersTo(Without(s, j), n - 1) + |s[j].buyers|
  {
    if n == j + 1 {
      assert s[..j] == Without(s, j)[..j];
      BuyersBefore(s, Without(s, j), j);
    } else {
      BuyersSplit(s, j, n - 1);
      assert Without(s, j)[n - 2] == s[n - 1];
    }
  }

  lemma MultisetWithout(s: seq<MapResult>, j: nat)
    requires j < |s|
    ensures multiset(s) == multiset(Without(s, j)) + multiset{s[j]}
  {
    assert s == s[..j] + ([s[j]] + s[j + 1..]);
    assert multiset(s) == multiset(s[..j]) + multiset([s[j]] + s[j + 1..]);
  }

  lemma WithoutLast(a: seq<MapResult>, b: seq<MapResult>) returns (j: nat)
    requires multiset(a) == multiset(b) && a != []
    ensures j < |b| && multiset(a[..|a| - 1]) == multiset(Without(b, j)) && b[j] == a[|a| - 1]
  {
    var n := |a| - 1;
    MultisetWithout(a, n);
    assert Without(a, n) == a[..n];
    assert a[n] in multiset(b);
    j :| 0 <= j < |b| && b[j] == a[n];
    MultisetWithout(b, j);
    CancelOne(multiset(a[..n]), multiset(Without(b, j)), a[n]);
  }

  lemma CancelOne<T>(a: multiset<T>, b: multiset<T>, x: T)
    requires a + multiset{x} == b + multiset{x}
    ensures a == b
  {
    assert a == (a + multiset{x}) - multiset{x} && b == (b + multiset{x}) - multiset{x};
  }

  /** Sorting does not change the total. */
  lemma {:induction false} SumPermutes(a: seq<MapResult>, b: seq<MapResult>)
    requires multiset(a) == multiset(b)
    ensures |a| == |b| && BuyersTo(a, |a|) == BuyersTo(b, |b|)
  {
    assert |multiset(a)| == |a| && |multiset(b)| == |b|;
    if a != [] {
      var n := |a| - 1;
      var j := WithoutLast(a, b);
      SumPermutes(a[..n], Without(b, j));
      BuyersBefore(a, a[..n], n);
      BuyersSplit(b, j, |b|);
    }
  }

  function ResultsOf(k: Commodity, stations: seq<Station>, sources: seq<SourceMap>, dist: Distance,
                     sort: seq<Buyer> -> seq<Buyer>): (r: seq<MapResult>)
    ensures |r| == |sources|
  {
    seq(|sources|, i requires 0 <= i < |sources| => ResultOf(k, stations, sources[i], dist, sort))
  }

  /** The filter on power states leaves at most one beside Stronghold. */
  lemma SourcesHaveOneOther(k: Commodity, maps: seq<string>, coords: map<string, Point>, states: map<string, string>,
                            stations: seq<Station>, dist: Distance, sort: seq<Buyer> -> seq<Buyer>)
    ensures OneOtherState(ResultsOf(k, stations, SourcesTo(maps, coords, states, |maps|), dist, sort))
  {
    var sources := SourcesTo(maps, coords, states, |maps|);
    var results := ResultsOf(k, stations, sources, dist, sort);
    forall m | m in results
      ensures m.state == "Fortified" || m.state == "Stronghold"
    {
      var i :| 0 <= i < |results| && results[i] == m;
      assert sources[i] in sources;
    }
  }

  /** The first ranks higher, or as high and is no farther. */
  predicate NoWorse(a: Buyer, b: Buyer) {
    a.rank > b.rank || (a.rank == b.rank && a.distance <= b.distance)
  }

  /** The result shows the ten best of all that is valid for this map, best first. */
  ghost predicate ShowsBest(k: Commodity, stations: seq<Station>, src: SourceMap, dist: Distance, r: MapResult) {
    var valid := Valid(k, stations, src, dist);
    && r.system == src.system && r.state == src.state && r.radius == src.radius
    && |r.buyers| == (if |valid| > 10 then 10 else |valid|)
    && multiset(r.buyers) <= multiset(valid)
    && (forall i, j | 0 <= i < j < |r.buyers| :: NoWorse(r.buyers[i], r.buyers[j]))
    && forall x, y | x in multiset(valid) - multiset(r.buyers) && y in r.buyers :: NoWorse(y, x)
  }

  /** Every list of the search is the best ten of its map's valid buyers. */
  lemma ListsAreBest(k: Commodity, stations: seq<Station>, sources: seq<SourceMap>, dist: Distance,
        sort: seq<Buyer> -> seq<Buyer>, r: MapResult)
    requires Sorts(sort, Outranks) && r in ResultsOf(k, stations, sources, dist, sort)
    ensures exists src | src in sources :: ShowsBest(k, stations, src, dist, r)
  {
    var i :| 0 <= i < |sources| && ResultOf(k, stations, sources[i], dist, sort) == r;
    ResultIsBest(k, stations, sources[i], dist, sort);
    assert forall x, y :: NoWorse(x, y) <==> !Outranks(y, x);
    assert sources[i] in sources && ShowsBest(k, stations, sources[i], dist, r);
  }

  /** The order of the maps: by their best buyer, by how many they show, for plasmium
      Stronghold first, and by name. */
  lemma MapsOrdered(k: Commodity, results: seq<MapResult>, i: nat, j: nat)
    requires Ordered(MapOrder(k), results) && i < j < |results|
    ensures var a, b := results[i], results[j];
            var x := if a.buyers == [] then 0.0 else a.buyers[0].rank;
            var y := if b.buyers == [] then 0.0 else b.buyers[0].rank;
            && x >= y
            && (x == y ==> |a.buyers| >= |b.buyers|)
            && (x == y && |a.buyers| == |b.buyers| ==>
                  if k.Plasmium? && a.state != b.state then b.state != "Stronghold"
                  else a.system == b.system || LexLess(a.system, b.system))
  {
    assert !MapOrder(k)(results[j], results[i]);
    LexTotal(results[i].system, results[j].system);
  }

  method AllResults(k: Commodity, sources: seq<SourceMap>, stations: seq<Station>, dist: Distance,
                    sort: seq<Buyer> -> seq<Buyer>)
    returns (results: seq<MapResult>, totalBuyers: nat)
    ensures results == ResultsOf(k, stations, sources, dist, sort)
    ensures totalBuyers == BuyersTo(results, |results|)
  {
    ghost var all := ResultsOf(k, stations, sources, dist, sort);
    results, totalBuyers := [], 0;
    for i := 0 to |sources|
      invariant results == all[..i]
      invariant totalBuyers == BuyersTo(all, i)
    {
      var result := MapBuyers(k, stations, sources[i], dist, sort);
      totalBuyers := totalBuyers + |result.buyers|;
      results := results + [result];
    }
    assert all[..|sources|] == all;
  }

  /** The whole search. The results come in the comparator's order, which is one only
      because other power states were filtered out. */
  method FindBuyers(k: Commodity, maps: seq<string>, coords: map<string, Point>, states: map<string, string>,
                    stations: seq<Station>, dist: Distance, sort: seq<Buyer> -> seq<Buyer>,
                    sortMaps: seq<MapResult> -> seq<MapResult>)
    returns (results: seq<MapResult>, totalBuyers: nat)
    requires Sorts(sort, Outranks) && Sorts(sortMaps, MapOrder(k))
    ensures multiset(results) == multiset(ResultsOf(k, stations, SourcesTo(maps, coords, states, |maps|), dist, sort))
    ensures Ordered(MapOrder(k), results)
    ensures totalBuyers == BuyersTo(results, |results|)
    ensures forall r | r in results ::
              exists src | src in SourcesTo(maps, coords, states, |maps|) :: ShowsBest(k, stations, src, dist, r)
  {
    var sources := FindSources(maps, coords, states);
    var unsorted;
    unsorted, totalBuyers := AllResults(k, sources, stations, dist, sort);
    results := sortMaps(unsorted);
    assert SortsOne(sortMaps, MapOrder(k), unsorted);
    SourcesHaveOneOther(k, maps, coords, states, stations, dist, sort);
    MapOrderIsWeak(k, unsorted);
    SumPermutes(unsorted, results);
    forall r | r in results
      ensures exists src | src in sources :: ShowsBest(k, stations, src, dist, r)
    {
      assert r in multiset(unsorted);
      ListsAreBest(k, stations, sources, dist, sort, r);
    }
  }
}
