/** One entry per station from rows that repeat it: the loop of getAllBoomStations
    in internal/kaine/plasmium.go. */
module BoomStations {
  /** A row of the query; `rest` is everything the loop only copies. */
  datatype Row<T> = Row(system: string, station: string, controlling: bool, rest: T)

  /** An entry; `controlling` stands for the pair controlling_faction and Station
      Boom against system_boom and System Boom. */
  datatype Entry<T> = Entry(system: string, station: string, controlling: bool, rest: T)

  function Key(system: string, station: string): string {
    system + "|" + station
  }

  function KeyOf<T>(r: Row<T>): string {
    Key(r.system, r.station)
  }

  predicate SamePair<T>(a: Row<T>, b: Row<T>) {
    a.system == b.system && a.station == b.station
  }

  // ----- What the loop computes -----

  /** No earlier row has the key of row i. */
  predicate First<T>(rows: seq<Row<T>>, i: nat)
    requires i < |rows|
  {
    forall j | 0 <= j < i :: KeyOf(rows[j]) != KeyOf(rows[i])
  }

  /** The rows among the first n that bring a new key, in order. */
  function FirstsTo<T>(rows: seq<Row<T>>, n: nat): (r: seq<nat>)
    requires n <= |rows|
    ensures forall k | 0 <= k < |r| :: r[k] < n && First(rows, r[k])
    ensures forall i, k | 0 <= i < k < |r| :: r[i] < r[k]
  {
    if n == 0 then [] else FirstsTo(rows, n - 1) + if First(rows, n - 1) then [n - 1] else []
  }

  /** Some row among the first n is a controlling one for the station of r. */
  predicate ControllingTo<T>(rows: seq<Row<T>>, r: Row<T>, n: nat)
    requires n <= |rows|
  {
    exists j | 0 <= j < n :: SamePair(rows[j], r) && rows[j].controlling
  }

  /** The entries after the first n rows: first rows in order, each marked
      controlling when some row so far makes it so. */
  ghost predicate EntriesAre<T(!new)>(entries: seq<Entry<T>>, rows: seq<Row<T>>, n: nat)
    requires n <= |rows|
  {
    var firsts := FirstsTo(rows, n);
    && |entries| == |firsts|
    && forall k | 0 <= k < |firsts| ::
         entries[k] == Entry(rows[firsts[k]].system, rows[firsts[k]].station,
                             ControllingTo(rows, rows[firsts[k]], n), rows[firsts[k]].rest)
  }

  lemma {:induction false} FirstsFind<T>(rows: seq<Row<T>>, n: nat, i: nat)
    requires i < n <= |rows| && First(rows, i)
    ensures i in FirstsTo(rows, n)
  {
    if i < n - 1 {
      FirstsFind(rows, n - 1, i);
    }
  }

  /** Every row's key belongs to a first row. */
  lemma {:induction false} KeyHasFirst<T>(rows: seq<Row<T>>, i: nat) returns (f: nat)
    requires i < |rows|
    ensures f <= i && First(rows, f) && KeyOf(rows[f]) == KeyOf(rows[i])
  {
    if First(rows, i) {
      f := i;
    } else {
      var j: nat :| j < i && KeyOf(rows[j]) == KeyOf(rows[i]);
      f := KeyHasFirst(rows, j);
    }
  }

  lemma SeenStep<T(!new)>(entries: seq<Entry<T>>, marked: seq<Entry<T>>, rows: seq<Row<T>>, n: nat)
    requires n < |rows| && !First(rows, n) && EntriesAre(entries, rows, n) && |marked| == |entries|
    requires forall k | 0 <= k < |entries| ::
               marked[k] == if rows[n].controlling && IsFor(entries[k], rows[n]) then entries[k].(controlling := true)
                            else entries[k]
    ensures EntriesAre(marked, rows, n + 1)
  {
    forall k | 0 <= k < |entries|
      ensures var r := rows[FirstsTo(rows, n)[k]];
              (ControllingTo(rows, r, n + 1)
               <==> ControllingTo(rows, r, n) || (SamePair(rows[n], r) && rows[n].controlling))
    {
      ControllingStep(rows, rows[FirstsTo(rows, n)[k]], n);
    }
  }

  lemma ControllingStep<T>(rows: seq<Row<T>>, r: Row<T>, n: nat)
    requires n < |rows|
    ensures ControllingTo(rows, r, n + 1)
       <==> ControllingTo(rows, r, n) || (SamePair(rows[n], r) && rows[n].controlling)
  {
  }

  lemma FirstStep<T(!new)>(entries: seq<Entry<T>>, rows: seq<Row<T>>, n: nat)
    requires n < |rows| && First(rows, n) && EntriesAre(entries, rows, n)
    ensures var r := rows[n];
            EntriesAre(entries + [Entry(r.system, r.station, r.controlling, r.rest)], rows, n + 1)
  {
    ControllingStep(rows, rows[n], n);
    forall k | 0 <= k < |entries|
      ensures ControllingTo(rows, rows[FirstsTo(rows, n)[k]], n + 1)
         <==> ControllingTo(rows, rows[FirstsTo(rows, n)[k]], n)
    {
      ControllingStep(rows, rows[FirstsTo(rows, n)[k]], n);
    }
  }

  // ----- The loop -----

  predicate IsFor<T>(e: Entry<T>, r: Row<T>) {
    e.system == r.system && e.station == r.station
  }

  predicate OnePerPair<T>(entries: seq<Entry<T>>) {
    forall i, k | 0 <= i < k < |entries| ::
      !(entries[i].system == entries[k].system && entries[i].station == entries[k].station)
  }

  /** The search for the entry to upgrade; it stops at the first. */
  method Upgrade<T>(entries: seq<Entry<T>>, r: Row<T>) returns (marked: seq<Entry<T>>)
    requires OnePerPair(entries)
    ensures |marked| == |entries|
    ensures forall k | 0 <= k < |entries| ::
              marked[k] == if IsFor(entries[k], r) then entries[k].(controlling := true) else entries[k]
  {
    marked := entries;
    for i := 0 to |entries|
      invariant marked == entries
      invariant forall k | 0 <= k < i :: !IsFor(entries[k], r)
    {
      if IsFor(entries[i], r) {
        marked := entries[i := entries[i].(controlling := true)];
        break;
      }
    }
  }

  lemma FirstKeysDiffer<T>(rows: seq<Row<T>>, n: nat, i: nat, k: nat)
    requires n <= |rows| && i < |FirstsTo(rows, n)| && k < |FirstsTo(rows, n)|
    ensures i != k ==> KeyOf(rows[FirstsTo(rows, n)[i]]) != KeyOf(rows[FirstsTo(rows, n)[k]])
  {
    var firsts := FirstsTo(rows, n);
    assert First(rows, firsts[i]) && First(rows, firsts[k]);
    assert firsts[i] < firsts[k] || firsts[k] < firsts[i] || i == k;
  }

  lemma EntriesAreDistinct<T(!new)>(entries: seq<Entry<T>>, rows: seq<Row<T>>, n: nat)
    requires n <= |rows| && EntriesAre(entries, rows, n)
    ensures OnePerPair(entries)
  {
    var firsts := FirstsTo(rows, n);
    forall i, k | 0 <= i < k < |entries|
      ensures !(entries[i].system == entries[k].system && entries[i].station == entries[k].station)
    {
      FirstKeysDiffer(rows, n, i, k);
    }
  }

  method GetAllBoomStations<T(!new)>(rows: seq<Row<T>>) returns (stations: seq<Entry<T>>)
    ensures EntriesAre(stations, rows, |rows|)
  {
    stations := [];
    var seen: set<string> := {};
    for i := 0 to |rows|
      invariant forall key | key in seen :: exists j | 0 <= j < i :: KeyOf(rows[j]) == key
      invariant forall j | 0 <= j < i :: KeyOf(rows[j]) in seen
      invariant EntriesAre(stations, rows, i)
    {
      var row := rows[i];
      var stationKey := row.system + "|" + row.station;
      if stationKey in seen {
        ghost var was := stations;
        if row.controlling {
          EntriesAreDistinct(stations, rows, i);
          stations := Upgrade(stations, row);
        }
        SeenStep(was, stations, rows, i);
        continue;
      }
      seen := seen + {stationKey};
      FirstStep(stations, rows, i);
      stations := stations + [Entry(row.system, row.station, row.controlling, row.rest)];
    }
  }

  // ----- What the entries mean -----

  /** Equal keys mean the same station. */
  predicate KeysInjective<T>(rows: seq<Row<T>>) {
    forall i, j | 0 <= i < |rows| && 0 <= j < |rows| && KeyOf(rows[i]) == KeyOf(rows[j]) :: SamePair(rows[i], rows[j])
  }

  predicate HasEntry<T>(entries: seq<Entry<T>>, r: Row<T>) {
    exists k | 0 <= k < |entries| :: IsFor(entries[k], r)
  }

  /** For any row order no station has two entries, and an entry is controlling
      exactly when some row of its station is. */
  lemma EntriesMeanStations<T(!new)>(entries: seq<Entry<T>>, rows: seq<Row<T>>)
    requires EntriesAre(entries, rows, |rows|)
    ensures OnePerPair(entries)
    ensures forall k | 0 <= k < |entries| ::
              (entries[k].controlling
               <==> exists j | 0 <= j < |rows| :: IsFor(entries[k], rows[j]) && rows[j].controlling)
  {
    EntriesAreDistinct(entries, rows, |rows|);
    forall k | 0 <= k < |entries|
      ensures entries[k].controlling
         <==> exists j | 0 <= j < |rows| :: IsFor(entries[k], rows[j]) && rows[j].controlling
    {
      var r := rows[FirstsTo(rows, |rows|)[k]];
      assert entries[k].controlling == ControllingTo(rows, r, |rows|);
    }
  }

  /** The entries stand for the rows that bring a new key, in their order, and have
      everything but the mark from them. */
  lemma EntriesCopyFirstRows<T(!new)>(entries: seq<Entry<T>>, rows: seq<Row<T>>) returns (firsts: seq<nat>)
    requires EntriesAre(entries, rows, |rows|)
    ensures |firsts| == |entries|
    ensures forall i, k | 0 <= i < k < |firsts| :: firsts[i] < firsts[k]
    ensures forall k | 0 <= k < |firsts| ::
              && firsts[k] < |rows|
              && var e, r := entries[k], rows[firsts[k]];
                 && e.system == r.system && e.station == r.station && e.rest == r.rest
                 && forall j | 0 <= j < firsts[k] ::
                      rows[j].system + "|" + rows[j].station != r.system + "|" + r.station
    ensures forall i | 0 <= i < |rows| ::
              exists k | 0 <= k < |firsts| ::
                firsts[k] <= i && rows[firsts[k]].system + "|" + rows[firsts[k]].station
                                  == rows[i].system + "|" + rows[i].station
  {
    firsts := FirstsTo(rows, |rows|);
    forall k | 0 <= k < |firsts|
      ensures forall j | 0 <= j < firsts[k] ::
                rows[j].system + "|" + rows[j].station != rows[firsts[k]].system + "|" + rows[firsts[k]].station
    {
      assert First(rows, firsts[k]);
      assert forall j | 0 <= j < firsts[k] :: KeyOf(rows[j]) != KeyOf(rows[firsts[k]]);
    }
    forall i | 0 <= i < |rows|
      ensures exists k | 0 <= k < |firsts| ::
                firsts[k] <= i && rows[firsts[k]].system + "|" + rows[firsts[k]].station
                                  == rows[i].system + "|" + rows[i].station
    {
      var f := KeyHasFirst(rows, i);
      FirstsFind(rows, |rows|, f);
      assert f in firsts;
    }
  }

  predicate AllPresent<T>(entries: seq<Entry<T>>, rows: seq<Row<T>>) {
    forall i | 0 <= i < |rows| :: HasEntry(entries, rows[i])
  }

  /** Every station has an entry exactly when the keys tell stations apart. */
  lemma PresentExactly<T(!new)>(entries: seq<Entry<T>>, rows: seq<Row<T>>)
    requires EntriesAre(entries, rows, |rows|)
    ensures AllPresent(entries, rows) <==> KeysInjective(rows)
  {
    if KeysInjective(rows) {
      forall i | 0 <= i < |rows|
        ensures HasEntry(entries, rows[i])
      {
        InjectiveHasEntry(entries, rows, i);
      }
    }
    if AllPresent(entries, rows) {
      forall i, j | 0 <= i < |rows| && 0 <= j < |rows| && KeyOf(rows[i]) == KeyOf(rows[j])
        ensures SamePair(rows[i], rows[j])
      {
        SameKeySameEntry(entries, rows, i, j);
      }
    }
  }

  lemma InjectiveHasEntry<T(!new)>(entries: seq<Entry<T>>, rows: seq<Row<T>>, i: nat)
    requires EntriesAre(entries, rows, |rows|) && KeysInjective(rows) && i < |rows|
    ensures HasEntry(entries, rows[i])
  {
    var f := KeyHasFirst(rows, i);
    FirstsFind(rows, |rows|, f);
    var k :| 0 <= k < |entries| && FirstsTo(rows, |rows|)[k] == f;
    assert IsFor(entries[k], rows[i]);
  }

  lemma SameKeySameEntry<T(!new)>(entries: seq<Entry<T>>, rows: seq<Row<T>>, i: nat, j: nat)
    requires EntriesAre(entries, rows, |rows|) && i < |rows| && j < |rows| && KeyOf(rows[i]) == KeyOf(rows[j])
    requires HasEntry(entries, rows[i]) && HasEntry(entries, rows[j])
    ensures SamePair(rows[i], rows[j])
  {
    var firsts := FirstsTo(rows, |rows|);
    var a :| 0 <= a < |entries| && IsFor(entries[a], rows[i]);
    var b :| 0 <= b < |entries| && IsFor(entries[b], rows[j]);
    FirstKeysDiffer(rows, |rows|, a, b);
  }

  // ----- When keys tell stations apart -----

  lemma SeparatorInside(a: string, b: string, c: string, d: string)
    requires Key(a, b) == Key(c, d) && |a| < |c|
    ensures '|' in c
  {
    assert Key(a, b)[|a|] == '|' && Key(c, d)[|a|] == c[|a|];
  }

  lemma KeySplits(a: string, b: string, c: string, d: string)
    requires '|' !in a && '|' !in c && Key(a, b) == Key(c, d)
    ensures a == c && b == d
  {
    var x, y := Key(a, b), Key(c, d);
    if |a| < |c| {
      SeparatorInside(a, b, c, d);
    } else if |c| < |a| {
      SeparatorInside(c, d, a, b);
    }
    assert a == x[..|a|] && c == y[..|c|];
    assert b == x[|a| + 1..] && d == y[|c| + 1..];
  }

  /** System names without the separator are enough. */
  lemma NoSeparatorIsInjective<T>(rows: seq<Row<T>>)
    requires forall i | 0 <= i < |rows| :: '|' !in rows[i].system
    ensures KeysInjective(rows)
  {
    forall i, j | 0 <= i < |rows| && 0 <= j < |rows| && KeyOf(rows[i]) == KeyOf(rows[j])
      ensures SamePair(rows[i], rows[j])
    {
      KeySplits(rows[i].system, rows[i].station, rows[j].system, rows[j].station);
    }
  }

  /** With it, two stations can share a key, and the second is lost. */
  lemma SeparatorCollides<T>(x: T)
    ensures !KeysInjective([Row("a|b", "c", false, x), Row("a", "b|c", true, x)])
  {
    var rows := [Row("a|b", "c", false, x), Row("a", "b|c", true, x)];
    assert KeyOf(rows[0]) == "a|b|c" == KeyOf(rows[1]);
    assert !SamePair(rows[0], rows[1]);
  }
}
