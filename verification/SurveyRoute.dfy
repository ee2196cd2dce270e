/** Survey routing: internal/httpapi/survey_route.go. Distances are any function
    of two points; MAX_FLOAT stands for math.MaxFloat64. */
module SurveyRoute {
  import opened Basics

  datatype Point = Point(x: real, y: real, z: real)

  datatype System = System(name: string, pos: Point, staleness: real, order: int, fromPrevious: real)

  type Distance = (Point, Point) -> real

  /** The search starts from this value, as from math.MaxFloat64. */
  datatype Metric = Metric(dist: Distance, max: real)

  // ----- Rounding -----

  /** math.Round: to the nearest integer, halves away from zero. */
  function Round(x: real): int {
    if x >= 0.0 then (x + 0.5).Floor else -((0.5 - x).Floor)
  }

  function Round10(x: real): real {
    Round(x * 10.0) as real / 10.0
  }

  /** A whole number of tenths, the nearest one; of two equally near the one away from zero. */
  lemma Round10IsNear(x: real) returns (tenths: int)
    ensures Round10(x) == tenths as real / 10.0
    ensures x >= 0.0 ==> tenths as real / 10.0 - 0.05 <= x < tenths as real / 10.0 + 0.05
    ensures x < 0.0 ==> tenths as real / 10.0 - 0.05 < x <= tenths as real / 10.0 + 0.05
  {
    tenths := Round(x * 10.0);
  }

  // ----- The greedy order -----

  /** k is the lowest unvisited index at the least distance, and that is below max. */
  predicate IsNearest(m: Metric, input: seq<System>, from: Point, seen: seq<nat>, k: nat) {
    && k < |input| && k !in seen
    && m.dist(from, input[k].pos) < m.max
    && forall i | 0 <= i < |input| && i !in seen ::
         if i < k then m.dist(from, input[k].pos) < m.dist(from, input[i].pos)
         else m.dist(from, input[k].pos) <= m.dist(from, input[i].pos)
  }

  /** No unvisited system is nearer than max. */
  predicate NoneNear(m: Metric, input: seq<System>, from: Point, seen: seq<nat>) {
    forall i | 0 <= i < |input| && i !in seen :: m.dist(from, input[i].pos) >= m.max
  }

  /** Every stop after the first is nearest to the one before it. */
  predicate Greedy(m: Metric, input: seq<System>, picks: seq<nat>) {
    && InRange(picks, |input|)
    && forall j | 1 <= j < |picks| :: IsNearest(m, input, input[picks[j - 1]].pos, picks[..j], picks[j])
  }

  /** The first stop: nearest to the start, or the first of the list. */
  predicate StartsWell(m: Metric, input: seq<System>, start: Option<Point>, first: nat) {
    if start.None? then first == 0
    else if NoneNear(m, input, start.value, []) then first == 0
    else IsNearest(m, input, start.value, [], first)
  }

  /** The greedy order leaves no choice. */
  lemma {:induction false} GreedyIsUnique(m: Metric, input: seq<System>, start: Option<Point>, p: seq<nat>,
        q: seq<nat>, n: nat)
    requires Greedy(m, input, p) && Greedy(m, input, q) && n <= |p| && n <= |q|
    requires n > 0 ==> StartsWell(m, input, start, p[0]) && StartsWell(m, input, start, q[0])
    ensures p[..n] == q[..n]
  {
    if n == 1 {
    } else if n > 1 {
      GreedyIsUnique(m, input, start, p, q, n - 1);
      assert p[n - 2] == p[..n - 1][n - 2] == q[..n - 1][n - 2] == q[n - 2];
      assert IsNearest(m, input, input[p[n - 2]].pos, p[..n - 1], p[n - 1]);
      assert IsNearest(m, input, input[q[n - 2]].pos, q[..n - 1], q[n - 1]);
      assert p[n - 1] == q[n - 1];
      assert p[..n] == p[..n - 1] + [p[n - 1]] && q[..n] == q[..n - 1] + [q[n - 1]];
    }
  }

  predicate Distinct(s: seq<nat>) {
    forall i, j | 0 <= i < j < |s| :: s[i] != s[j]
  }

  lemma GreedyIsDistinct(m: Metric, input: seq<System>, picks: seq<nat>)
    requires Greedy(m, input, picks)
    ensures Distinct(picks)
  {
    forall i, j | 0 <= i < j < |picks|
      ensures picks[i] != picks[j]
    {
      assert IsNearest(m, input, input[picks[j - 1]].pos, picks[..j], picks[j]);
      assert picks[..j][i] == picks[i];
    }
  }

  /** The stop at position k of the route. */
  function Stop(m: Metric, input: seq<System>, start: Option<Point>, picks: seq<nat>, k: nat): System
    requires k < |picks| && picks[k] < |input| && (k > 0 ==> picks[k - 1] < |input|)
  {
    var s := input[picks[k]].(order := k + 1);
    if k > 0 then s.(fromPrevious := Round10(m.dist(input[picks[k - 1]].pos, s.pos)))
    else if start.Some? then s.(fromPrevious := Round10(FirstHop(m, input, start.value, picks[0])))
    else s
  }

  /** The distance the search for the first stop ends with. */
  function FirstHop(m: Metric, input: seq<System>, start: Point, first: nat): real
    requires first < |input|
  {
    var d := m.dist(start, input[first].pos);
    if d < m.max || |input| == 1 then d else m.max
  }

  // ----- The searches -----

  predicate SamePlaces(systems: seq<System>, input: seq<System>) {
    |systems| == |input| && forall i | 0 <= i < |input| :: systems[i].pos == input[i].pos
  }

  method FindFirst(m: Metric, systems: array<System>, start: Point) returns (current: nat, bestDist: real)
    requires systems.Length > 0
    ensures current < systems.Length
    ensures StartsWell(m, systems[..], Some(start), current)
    ensures bestDist ==
            if m.dist(start, systems[current].pos) < m.max then m.dist(start, systems[current].pos) else m.max
  {
    current, bestDist := 0, m.max;
    for i := 0 to systems.Length
      invariant current < systems.Length
      invariant bestDist == m.max ==>
                  current == 0 && forall k | 0 <= k < i :: m.dist(start, systems[k].pos) >= m.max
      invariant bestDist <= m.max
      invariant bestDist < m.max ==>
                  && bestDist == m.dist(start, systems[current].pos) && current < i
                  && forall k | 0 <= k < i ::
                       if k < current then bestDist < m.dist(start, systems[k].pos)
                       else bestDist <= m.dist(start, systems[k].pos)
    {
      var d := m.dist(start, systems[i].pos);
      if d < bestDist {
        bestDist, current := d, i;
      }
    }
  }

  predicate Visits(visited: seq<bool>, picks: seq<nat>) {
    forall i | 0 <= i < |visited| :: visited[i] <==> i in picks
  }

  /** `input` has the same places as the array. */
  method FindNext(m: Metric, systems: array<System>, visited: array<bool>, from: Point, ghost seen: seq<nat>,
                  ghost input: seq<System>)
    returns (bestIdx: int, bestDist: real)
    requires visited.Length == systems.Length && SamePlaces(systems[..], input)
    requires Visits(visited[..], seen)
    ensures bestIdx < 0 ==> NoneNear(m, input, from, seen)
    ensures bestIdx >= 0 ==> IsNearest(m, input, from, seen, bestIdx) && bestDist == m.dist(from, input[bestIdx].pos)
  {
    bestDist, bestIdx := m.max, -1;
    for i := 0 to systems.Length
      invariant -1 <= bestIdx < i
      invariant bestIdx == -1 ==>
                  bestDist == m.max && forall k | 0 <= k < i && k !in seen :: m.dist(from, systems[k].pos) >= m.max
      invariant bestIdx >= 0 ==>
                  && bestIdx !in seen && bestDist == m.dist(from, systems[bestIdx].pos) && bestDist < m.max
                  && forall k | 0 <= k < i && k !in seen ::
                       if k < bestIdx then bestDist < m.dist(from, systems[k].pos)
                       else bestDist <= m.dist(from, systems[k].pos)
    {
      if visited[i] {
        continue;
      }
      var d := m.dist(from, systems[i].pos);
      if d < bestDist {
        bestDist, bestIdx := d, i;
      }
    }
  }

  // ----- The route -----

  predicate InRange(picks: seq<nat>, n: nat) {
    forall j | 0 <= j < |picks| :: picks[j] < n
  }

  /** The route lists the stops, and the array holds each in its place. */
  predicate Marked(m: Metric, input: seq<System>, start: Option<Point>, picks: seq<nat>, route: seq<System>,
                   systems: seq<System>)
  {
    && InRange(picks, |input|) && |systems| == |input|
    && |route| == |picks|
    && (forall k | 0 <= k < |picks| :: route[k] == Stop(m, input, start, picks, k))
    && (forall k | 0 <= k < |picks| :: systems[picks[k]] == route[k])
    && (forall i | 0 <= i < |input| && i !in picks :: systems[i] == input[i])
  }

  /** A route that leaves systems out has nothing near its last stop. */
  predicate Exhausted(m: Metric, input: seq<System>, picks: seq<nat>) {
    InRange(picks, |input|) && (0 < |picks| < |input| ==> NoneNear(m, input, input[picks[|picks| - 1]].pos, picks))
  }

  lemma GreedyOn(m: Metric, input: seq<System>, picks: seq<nat>, k: nat)
    requires Greedy(m, input, picks) && picks != []
    requires IsNearest(m, input, input[picks[|picks| - 1]].pos, picks, k)
    ensures Greedy(m, input, picks + [k])
  {
    var longer := picks + [k];
    forall j | 1 <= j < |longer|
      ensures IsNearest(m, input, input[longer[j - 1]].pos, longer[..j], longer[j])
    {
      assert longer[..j] == picks[..j];
      if j == |picks| {
        assert picks[..j] == picks;
      }
    }
  }

  lemma MarkedOn(m: Metric, input: seq<System>, start: Option<Point>, picks: seq<nat>, route: seq<System>,
                 systems: seq<System>, k: nat, stop: System)
    requires InRange(picks, |input|) && k < |input| && k !in picks && |systems| == |input|
    requires Marked(m, input, start, picks, route, systems)
    requires stop == Stop(m, input, start, picks + [k], |picks|)
    ensures InRange(picks + [k], |input|)
    ensures Marked(m, input, start, picks + [k], route + [stop], systems[k := stop])
  {
    var longer := picks + [k];
    forall j | 0 <= j < |picks|
      ensures longer[j] == picks[j] && picks[j] != k
      ensures Stop(m, input, start, longer, j) == Stop(m, input, start, picks, j)
    {
    }
  }

  /** The first stop of a route through several systems. */
  method FirstStop(m: Metric, systems: array<System>, start: Option<Point>) returns (current: nat)
    requires systems.Length > 1
    modifies systems
    ensures current < systems.Length && StartsWell(m, old(systems[..]), start, current)
    ensures SamePlaces(systems[..], old(systems[..]))
    ensures Marked(m, old(systems[..]), start, [current], [systems[current]], systems[..])
  {
    current := 0;
    if start.Some? {
      var bestDist;
      current, bestDist := FindFirst(m, systems, start.value);
      systems[current] := systems[current].(fromPrevious := Round10(bestDist));
    }
    systems[current] := systems[current].(order := 1);
  }

  /** Marks the next stop in the array. */
  method Mark(m: Metric, systems: array<System>, next: nat, bestDist: real, step: nat, ghost start: Option<Point>,
              ghost input: seq<System>, ghost picks: seq<nat>, ghost route: seq<System>)
    requires Marked(m, input, start, picks, route, systems[..]) && SamePlaces(systems[..], input)
    requires next < systems.Length && next !in picks && step == |picks| > 0
    requires bestDist == m.dist(input[picks[step - 1]].pos, input[next].pos)
    modifies systems
    ensures SamePlaces(systems[..], input)
    ensures Marked(m, input, start, picks + [next], route + [systems[next]], systems[..])
  {
    ghost var was := systems[..];
    systems[next] := systems[next].(order := step + 1, fromPrevious := Round10(bestDist));
    assert systems[..] == was[next := systems[next]];
    MarkedOn(m, input, start, picks, route, was, next, systems[next]);
  }

  /** One round: the nearest unvisited system is marked as the next stop. */
  method VisitNext(m: Metric, systems: array<System>, visited: array<bool>, current: nat, step: nat,
                   ghost start: Option<Point>, ghost input: seq<System>, ghost picks: seq<nat>,
                   ghost route: seq<System>)
    returns (next: int)
    requires visited.Length == systems.Length == |input| && SamePlaces(systems[..], input)
    requires step == |picks| > 0 && current == picks[step - 1]
    requires Visits(visited[..], picks) && Greedy(m, input, picks)
    requires Marked(m, input, start, picks, route, systems[..])
    modifies systems, visited
    ensures SamePlaces(systems[..], input)
    ensures next < 0 ==> Exhausted(m, input, picks) && systems[..] == old(systems[..])
    ensures next >= 0 ==> next < systems.Length && next !in picks && Visits(visited[..], picks + [next])
    ensures next >= 0 ==> Greedy(m, input, picks + [next])
    ensures next >= 0 ==> Marked(m, input, start, picks + [next], route + [systems[next]], systems[..])
  {
    var bestDist;
    next, bestDist := FindNext(m, systems, visited, systems[current].pos, picks, input);
    if next >= 0 {
      GreedyOn(m, input, picks, next);
      Mark(m, systems, next, bestDist, step, start, input, picks, route);
      visited[next] := true;
    }
  }

  /** The stops after the first. `input` is the array before any was marked. */
  method VisitRest(m: Metric, systems: array<System>, first: nat, ghost start: Option<Point>, ghost input: seq<System>)
    returns (route: seq<System>, ghost picks: seq<nat>)
    requires first < systems.Length == |input| && SamePlaces(systems[..], input)
    requires Marked(m, input, start, [first], [systems[first]], systems[..])
    modifies systems
    ensures Greedy(m, input, picks) && picks != [] && picks[0] == first
    ensures Marked(m, input, start, picks, route, systems[..])
    ensures Exhausted(m, input, picks)
  {
    var n := systems.Length;
    var visited := new bool[n](_ => false);
    var current := first;
    visited[current] := true;
    route := [systems[current]];
    picks := [current];
    var step := 1;
    while step < n
      invariant 1 <= step == |picks| <= n && current == picks[step - 1] && picks[0] == first
      invariant Visits(visited[..], picks)
      invariant SamePlaces(systems[..], input)
      invariant Greedy(m, input, picks)
      invariant Marked(m, input, start, picks, route, systems[..])
    {
      var bestIdx := VisitNext(m, systems, visited, current, step, start, input, picks, route);
      if bestIdx < 0 {
        break;
      }
      route := route + [systems[bestIdx]];
      picks := picks + [bestIdx as nat];
      current := bestIdx;
      step := step + 1;
    }
  }

  /** nearestNeighbourRoute: a greedy route through the array, each system marked in
      place. It ends early only where nothing unvisited is nearer than max. */
  method NearestNeighbourRoute(m: Metric, systems: array<System>, start: Option<Point>)
    returns (route: seq<System>, ghost picks: seq<nat>)
    modifies systems
    ensures Greedy(m, old(systems[..]), picks)
    ensures systems.Length > 0 ==> picks != [] && StartsWell(m, old(systems[..]), start, picks[0])
    ensures Marked(m, old(systems[..]), start, picks, route, systems[..])
    ensures Exhausted(m, old(systems[..]), picks)
  {
    ghost var input := systems[..];
    if systems.Length <= 1 {
      picks := [];
      if systems.Length == 1 {
        picks := [0];
        systems[0] := systems[0].(order := 1);
        if start.Some? {
          systems[0] := systems[0].(fromPrevious := Round10(m.dist(start.value, systems[0].pos)));
        }
      }
      route := systems[..];
      return;
    }
    var first := FirstStop(m, systems, start);
    route, picks := VisitRest(m, systems, first, start, input);
  }

  // ----- Nothing is lost -----

  predicate Finite(m: Metric, input: seq<System>) {
    forall i, j | 0 <= i < |input| && 0 <= j < |input| :: m.dist(input[i].pos, input[j].pos) < m.max
  }

  /** s without its entry at k. */
  function Without(s: seq<nat>, k: nat): seq<nat>
    requires k < |s|
  {
    s[..k] + s[k + 1..]
  }

  lemma WithoutIsDistinct(s: seq<nat>, k: nat, n: nat)
    requires Distinct(s) && InRange(s, n) && k < |s| && s[k] == n - 1
    ensures Distinct(Without(s, k)) && InRange(Without(s, k), n - 1)
    ensures forall x | x in s && x != n - 1 :: x in Without(s, k)
  {
    var t := Without(s, k);
    forall i | 0 <= i < |t|
      ensures t[i] == s[if i < k then i else i + 1]
    {
    }
    forall x | x in s && x != n - 1
      ensures x in t
    {
      var i :| 0 <= i < |s| && s[i] == x;
      assert t[if i < k then i else i - 1] == x;
    }
  }

  lemma {:induction false} NoMoreThan(s: seq<nat>, n: nat)
    requires Distinct(s) && InRange(s, n)
    ensures |s| <= n
    decreases n
  {
    if s != [] {
      assert s[0] < n;
      if k :| 0 <= k < |s| && s[k] == n - 1 {
        WithoutIsDistinct(s, k, n);
        NoMoreThan(Without(s, k), n - 1);
      } else {
        NoMoreThan(s, n - 1);
      }
    }
  }

  lemma {:induction false} Missing(s: seq<nat>, n: nat) returns (i: nat)
    requires Distinct(s) && InRange(s, n) && |s| < n
    ensures i < n && i !in s
    decreases n
  {
    if k :| 0 <= k < |s| && s[k] == n - 1 {
      WithoutIsDistinct(s, k, n);
      i := Missing(Without(s, k), n - 1);
    } else {
      i := n - 1;
    }
  }

  lemma SomethingIsNear(m: Metric, input: seq<System>, picks: seq<nat>)
    requires Finite(m, input) && Distinct(picks) && InRange(picks, |input|) && 0 < |picks| < |input|
    ensures !NoneNear(m, input, input[picks[|picks| - 1]].pos, picks)
  {
    var i := Missing(picks, |input|);
    assert m.dist(input[picks[|picks| - 1]].pos, input[i].pos) < m.max;
  }

  /** For finite distances the search never comes back empty, and the route visits
      every system exactly once. */
  lemma RouteIsComplete(m: Metric, input: seq<System>, picks: seq<nat>)
    requires Greedy(m, input, picks) && Finite(m, input) && (input != [] ==> picks != [])
    requires Exhausted(m, input, picks)
    ensures Distinct(picks) && |picks| == |input| && forall i | 0 <= i < |input| :: i in picks
  {
    GreedyIsDistinct(m, input, picks);
    NoMoreThan(picks, |input|);
    if |picks| < |input| {
      SomethingIsNear(m, input, picks);
    }
    forall i: nat | i < |input|
      ensures i in picks
    {
      if i !in picks {
        NoMoreThan(picks + [i], |input|);
      }
    }
  }

  // ----- The answer -----

  /** The limit parameter, None when it is absent or not a number. */
  function Limit(parameter: Option<int>): nat {
    if parameter.Some? && 0 < parameter.value <= 500 then parameter.value else 50
  }

  predicate StalestFirst(s: seq<System>) {
    forall i, j | 0 <= i < j < |s| :: s[i].staleness >= s[j].staleness
  }

  /** A result sort.Slice may give; it fixes no order among equals. */
  predicate SortedFrom(sorted: seq<System>, all: seq<System>) {
    multiset(sorted) == multiset(all) && StalestFirst(sorted)
  }

  function Cut(sorted: seq<System>, limit: nat): seq<System> {
    if |sorted| > limit then sorted[..limit] else sorted
  }

  /** `kept` are `limit` of the candidates, and none left out is staler than one kept. */
  ghost predicate Stalest(all: seq<System>, kept: seq<System>, limit: nat) {
    && |kept| == (if |all| > limit then limit else |all|)
    && multiset(kept) <= multiset(all)
    && forall x, y | x in multiset(all) - multiset(kept) && y in kept :: x.staleness <= y.staleness
  }

  lemma CutIsStalest(all: seq<System>, sorted: seq<System>, limit: nat)
    requires SortedFrom(sorted, all)
    ensures Stalest(all, Cut(sorted, limit), limit)
  {
    var kept := Cut(sorted, limit);
    var rest := sorted[|kept|..];
    assert sorted == kept + rest;
    assert multiset(all) == multiset(kept) + multiset(rest);
    assert |multiset(all)| == |all| && |multiset(sorted)| == |sorted|;
    forall x, y | x in multiset(all) - multiset(kept) && y in kept
      ensures x.staleness <= y.staleness
    {
      assert x in multiset(rest);
      var i, j :| 0 <= i < |rest| && rest[i] == x && 0 <= j < |kept| && kept[j] == y;
      assert sorted[|kept| + i] == x && sorted[j] == y;
    }
  }

  /** The true length of the way to stop k. */
  function Hop(m: Metric, input: seq<System>, start: Option<Point>, picks: seq<nat>, k: nat): real
    requires InRange(picks, |input|) && k < |picks|
  {
    if k > 0 then m.dist(input[picks[k - 1]].pos, input[picks[k]].pos)
    else if start.Some? then m.dist(start.value, input[picks[0]].pos)
    else 0.0
  }

  function PathTo(m: Metric, input: seq<System>, start: Option<Point>, picks: seq<nat>, n: nat): real
    requires InRange(picks, |input|) && n <= |picks|
  {
    if n == 0 then 0.0 else PathTo(m, input, start, picks, n - 1) + Hop(m, input, start, picks, n - 1)
  }

  function SumTo(route: seq<System>, n: nat): real
    requires n <= |route|
  {
    if n == 0 then 0.0 else SumTo(route, n - 1) + route[n - 1].fromPrevious
  }

  /** Fresh candidates carry no distance, and the start is a real place. */
  predicate Unrouted(m: Metric, input: seq<System>, start: Option<Point>) {
    && (forall i | 0 <= i < |input| :: input[i].fromPrevious == 0.0)
    && (start.Some? ==> forall i | 0 <= i < |input| :: m.dist(start.value, input[i].pos) < m.max)
  }

  lemma {:induction false} SumIsNear(m: Metric, input: seq<System>, start: Option<Point>, picks: seq<nat>,
                                     route: seq<System>, systems: seq<System>, n: nat)
    requires Marked(m, input, start, picks, route, systems) && Unrouted(m, input, start) && n <= |picks|
    ensures var path := PathTo(m, input, start, picks, n);
            path - 0.05 * n as real <= SumTo(route, n) <= path + 0.05 * n as real
  {
    if n > 0 {
      SumIsNear(m, input, start, picks, route, systems, n - 1);
      assert route[n - 1] == Stop(m, input, start, picks, n - 1);
      var _ := Round10IsNear(Hop(m, input, start, picks, n - 1));
    }
  }

  /** Stop k is the kept system that was picked, numbered, with the rounded way to it. */
  predicate StopIs(m: Metric, kept: seq<System>, start: Option<Point>, picks: seq<nat>, k: nat, stop: System) {
    && k < |picks| && InRange(picks, |kept|)
    && var s := kept[picks[k]];
       && stop.name == s.name && stop.pos == s.pos && stop.staleness == s.staleness && stop.order == k + 1
       && (k > 0 ==> stop.fromPrevious == Round10(m.dist(kept[picks[k - 1]].pos, s.pos)))
       && (k == 0 && start.Some? ==> stop.fromPrevious == Round10(m.dist(start.value, s.pos)))
       && (k == 0 && start.None? ==> stop.fromPrevious == 0.0)
  }

  /** The route goes through every kept system once, greedily, and its reported
      length is near the true one. */
  predicate GoodAnswer(m: Metric, kept: seq<System>, start: Option<Point>, picks: seq<nat>, routed: seq<System>,
        total: real) {
    && |routed| == |picks| == |kept| && Distinct(picks)
    && Greedy(m, kept, picks) && (kept != [] ==> picks != [] && StartsWell(m, kept, start, picks[0]))
    && (forall k | 0 <= k < |routed| :: StopIs(m, kept, start, picks, k, routed[k]))
    && total == Round10(SumTo(routed, |routed|))
    && var path := PathTo(m, kept, start, picks, |picks|);
       path - 0.05 * (|routed| + 1) as real <= total <= path + 0.05 * (|routed| + 1) as real
  }

  lemma StopsAre(m: Metric, kept: seq<System>, start: Option<Point>, picks: seq<nat>, routed: seq<System>,
                 systems: seq<System>, k: nat)
    requires Unrouted(m, kept, start) && Marked(m, kept, start, picks, routed, systems) && k < |routed|
    ensures StopIs(m, kept, start, picks, k, routed[k])
  {
    assert routed[k] == Stop(m, kept, start, picks, k);
  }

  lemma RoutedIsGood(m: Metric, kept: seq<System>, start: Option<Point>, picks: seq<nat>, routed: seq<System>,
                     systems: seq<System>)
    requires Finite(m, kept) && Unrouted(m, kept, start) && Greedy(m, kept, picks)
    requires kept != [] ==> picks != [] && StartsWell(m, kept, start, picks[0])
    requires Exhausted(m, kept, picks) && Marked(m, kept, start, picks, routed, systems)
    ensures GoodAnswer(m, kept, start, picks, routed, Round10(SumTo(routed, |routed|)))
  {
    RouteIsComplete(m, kept, picks);
    SumIsNear(m, kept, start, picks, routed, systems, |picks|);
    var _ := Round10IsNear(SumTo(routed, |routed|));
    forall k | 0 <= k < |routed|
      ensures StopIs(m, kept, start, picks, k, routed[k])
    {
      StopsAre(m, kept, start, picks, routed, systems, k);
    }
  }

  method TotalDistance(routed: seq<System>) returns (totalDist: real)
    ensures totalDist == SumTo(routed, |routed|)
  {
    totalDist := 0.0;
    for i := 0 to |routed|
      invariant totalDist == SumTo(routed, i)
    {
      totalDist := totalDist + routed[i].fromPrevious;
    }
  }

  lemma CutKeeps(m: Metric, sorted: seq<System>, start: Option<Point>, limit: nat)
    requires Finite(m, sorted) && Unrouted(m, sorted, start)
    ensures Finite(m, Cut(sorted, limit)) && Unrouted(m, Cut(sorted, limit), start)
  {
  }

  method RouteKept(m: Metric, kept: seq<System>, start: Option<Point>)
    returns (routed: seq<System>, total: real, ghost picks: seq<nat>)
    requires Finite(m, kept) && Unrouted(m, kept, start)
    ensures GoodAnswer(m, kept, start, picks, routed, total)
  {
    var systems := new System[|kept|](i requires 0 <= i < |kept| => kept[i]);
    assert systems[..] == kept;
    routed, picks := NearestNeighbourRoute(m, systems, start);
    RoutedIsGood(m, kept, start, picks, routed, systems[..]);
    var totalDist := TotalDistance(routed);
    total := Round10(totalDist);
  }

  /** The routed part of handleSurveyRoute, on the candidates as some sort leaves them. */
  method HandleSurveyRoute(m: Metric, sorted: seq<System>, parameter: Option<int>, start: Option<Point>,
                           ghost all: seq<System>)
    returns (routed: seq<System>, total: real, ghost picks: seq<nat>)
    requires SortedFrom(sorted, all) && Finite(m, sorted) && Unrouted(m, sorted, start)
    ensures var limit := if parameter.Some? && 1 <= parameter.value <= 500 then parameter.value else 50;
            Stalest(all, Cut(sorted, limit), limit) && GoodAnswer(m, Cut(sorted, limit), start, picks, routed, total)
    ensures var limit := if parameter.Some? && 1 <= parameter.value <= 500 then parameter.value else 50;
            exists p :: GoodAnswer(m, Cut(sorted, limit), start, p, routed, total)
  {
    var limit := Limit(parameter);
    var kept := if |sorted| > limit then sorted[..limit] else sorted;
    CutIsStalest(all, sorted, limit);
    CutKeeps(m, sorted, start, limit);
    routed, total, picks := RouteKept(m, kept, start);
  }
}
