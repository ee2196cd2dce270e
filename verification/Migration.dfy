/** Paged migration of journal events with failures and restarts:
    cmd/migrate-commander-data/main.go, and InsertEvents in
    internal/store/commander_repository.go. */
module Migration {
  import opened Basics

  datatype Event = Event(timestamp: int, kind: string, data: string)

  /** The unique key of a stored event. */
  datatype Key = Key(fid: string, timestamp: int, kind: string)

  datatype Commander = Commander(fid: string, name: string, platform: string)

  type Table = map<Key, string>

  /** The events of each commander, in the one order every page is cut from. */
  type Source = string -> seq<Event>

  /** How a call goes: no error, an error without effect, or an error after the effect. */
  datatype Fault = Fine | Lost | Late

  datatype MigrateResult = MigrateResult(commanders: nat, inserted: nat, duplicates: nat, skipped: nat)

  // ----- What is to be stored -----

  datatype Item = Item(fid: string, event: Event)

  predicate IsValid(ev: Event) {
    ev.kind != ""
  }

  function KeyOf(fid: string, ev: Event): Key {
    Key(fid, ev.timestamp, ev.kind)
  }

  /** ON CONFLICT DO NOTHING */
  function Put(t: Table, fid: string, ev: Event): Table {
    if KeyOf(fid, ev) in t then t else t[KeyOf(fid, ev) := ev.data]
  }

  /** The events of the first c commanders, in reading order. */
  function ItemsTo(commanders: seq<Commander>, src: Source, c: nat): seq<Item>
    requires c <= |commanders|
  {
    if c == 0 then [] else ItemsTo(commanders, src, c - 1) + Tagged(commanders[c - 1].fid, src(commanders[c - 1].fid))
  }

  function Tagged(fid: string, events: seq<Event>): seq<Item> {
    seq(|events|, i requires 0 <= i < |events| => Item(fid, events[i]))
  }

  function Items(commanders: seq<Commander>, src: Source): seq<Item> {
    ItemsTo(commanders, src, |commanders|)
  }

  /** The table with the first n items, invalid ones left out. */
  function MergedTo(t: Table, items: seq<Item>, n: nat): Table
    requires n <= |items|
  {
    if n == 0 then t else
    var rest := MergedTo(t, items, n - 1);
    if IsValid(items[n - 1].event) then Put(rest, items[n - 1].fid, items[n - 1].event) else rest
  }

  function Merged(t: Table, items: seq<Item>): Table {
    MergedTo(t, items, |items|)
  }

  predicate Brings(item: Item, key: Key) {
    item.event.kind != "" && key == Key(item.fid, item.event.timestamp, item.event.kind)
  }

  /** The first of the first n items that is valid and has this key. */
  function Winner(items: seq<Item>, n: nat, key: Key): (r: Option<nat>)
    requires n <= |items|
    ensures r.Some? ==> r.value < n && Brings(items[r.value], key)
    ensures r.Some? ==> forall i | 0 <= i < r.value :: !Brings(items[i], key)
    ensures r.None? ==> forall i | 0 <= i < n :: !Brings(items[i], key)
  {
    if n == 0 then None else
    var earlier := Winner(items, n - 1, key);
    if earlier.Some? then earlier else if Brings(items[n - 1], key) then Some(n - 1) else None
  }

  /** A merge keeps what was there and adds exactly the valid events, the first of
      each key winning. */
  lemma {:induction false} MergedExactly(t: Table, items: seq<Item>, n: nat, key: Key)
    requires n <= |items|
    ensures var m, w := MergedTo(t, items, n), Winner(items, n, key);
            if key in t then key in m && m[key] == t[key]
            else if w.Some? then key in m && m[key] == items[w.value].event.data
            else key !in m
  {
    if n > 0 {
      MergedExactly(t, items, n - 1, key);
    }
  }

  /** Storing again what is there changes nothing, and going on from it comes to the same. */
  lemma {:induction false} MergeResumes(t: Table, items: seq<Item>, done: nat, n: nat)
    requires done <= |items| && n <= |items|
    ensures MergedTo(MergedTo(t, items, done), items, n) == MergedTo(t, items, if done < n then n else done)
  {
    if n > 0 {
      MergeResumes(t, items, done, n - 1);
      if n <= done && IsValid(items[n - 1].event) {
        StaysStored(t, items, n - 1, done);
      }
    }
  }

  lemma {:induction false} StaysStored(t: Table, items: seq<Item>, i: nat, n: nat)
    requires i < n <= |items| && IsValid(items[i].event)
    ensures KeyOf(items[i].fid, items[i].event) in MergedTo(t, items, n)
  {
    if i < n - 1 {
      StaysStored(t, items, i, n - 1);
    }
  }

  // ----- The target -----

  /** The valid events among the first n of a page. */
  function ValidTo(events: seq<Event>, n: nat): seq<Event>
    requires n <= |events|
  {
    if n == 0 then []
    else if IsValid(events[n - 1]) then ValidTo(events, n - 1) + [events[n - 1]]
    else ValidTo(events, n - 1)
  }

  function InsertedTo(t: Table, fid: string, events: seq<Event>, n: nat): (r: Table)
    requires n <= |events|
    ensures |t| <= |r| <= |t| + n
  {
    if n == 0 then t else Put(InsertedTo(t, fid, events, n - 1), fid, events[n - 1])
  }

  class Target {
    var rows: Table
    var commanders: map<string, string>

    constructor (rows: Table, commanders: map<string, string>)
      ensures this.rows == rows && this.commanders == commanders
    {
      this.rows, this.commanders := rows, commanders;
    }

    method UpsertCommander(fid: string, name: string, fault: Fault) returns (ok: bool)
      modifies `commanders
      ensures ok == fault.Fine?
      ensures commanders == if fault.Lost? then old(commanders) else old(commanders)[fid := name]
    {
      if !fault.Lost? {
        commanders := commanders[fid := name];
      }
      ok := fault.Fine?;
    }

    /** One transaction: all of the events, or none when it is lost. */
    method InsertEvents(fid: string, events: seq<Event>, fault: Fault)
      returns (ok: bool, inserted: nat, duplicates: nat)
      modifies `rows
      ensures ok == fault.Fine?
      ensures rows == if fault.Lost? then old(rows) else InsertedTo(old(rows), fid, events, |events|)
      ensures ok ==> inserted + duplicates == |events| && inserted == |rows| - |old(rows)|
    {
      inserted, duplicates := 0, 0;
      if fault.Lost? {
        return false, 0, 0;
      }
      for i := 0 to |events|
        invariant rows == InsertedTo(old(rows), fid, events, i)
        invariant inserted + duplicates == i && inserted == |rows| - |old(rows)|
      {
        var key := KeyOf(fid, events[i]);
        if key !in rows {
          rows := rows[key := events[i].data];
          inserted := inserted + 1;
        } else {
          duplicates := duplicates + 1;
        }
      }
      if fault.Late? {
        return false, 0, 0;
      }
      ok := true;
    }
  }

  // ----- Pages and items -----

  /** Items n to n + |page| are the events of the page. */
  predicate IsPage(items: seq<Item>, n: nat, fid: string, page: seq<Event>) {
    n + |page| <= |items| && forall i | 0 <= i < |page| :: items[n + i] == Item(fid, page[i])
  }

  lemma {:induction false} PageMerges(t: Table, items: seq<Item>, n: nat, fid: string, page: seq<Event>, k: nat)
    requires IsPage(items, n, fid, page) && k <= |page|
    ensures var valid := ValidTo(page, k);
            InsertedTo(MergedTo(t, items, n), fid, valid, |valid|) == MergedTo(t, items, n + k)
  {
    if k > 0 {
      PageMerges(t, items, n, fid, page, k - 1);
      assert items[n + (k - 1)] == Item(fid, page[k - 1]);
      if IsValid(page[k - 1]) {
        var valid := ValidTo(page, k - 1);
        InsertedPrefix(MergedTo(t, items, n), fid, valid, valid + [page[k - 1]], |valid|);
      }
    }
  }

  lemma {:induction false} InsertedPrefix(t: Table, fid: string, a: seq<Event>, b: seq<Event>, n: nat)
    requires n <= |a| <= |b| && b[..|a|] == a
    ensures InsertedTo(t, fid, a, n) == InsertedTo(t, fid, b, n)
  {
    if n > 0 {
      InsertedPrefix(t, fid, a, b, n - 1);
      assert a[n - 1] == b[..|a|][n - 1] == b[n - 1];
    }
  }

  lemma {:induction false} ItemsPrefix(commanders: seq<Commander>, src: Source, c: nat, d: nat)
    requires c <= d <= |commanders|
    ensures ItemsTo(commanders, src, c) <= ItemsTo(commanders, src, d)
  {
    if c < d {
      ItemsPrefix(commanders, src, c, d - 1);
    }
  }

  /** The page of commander c at an offset, among the items. */
  lemma PageOfItems(commanders: seq<Commander>, src: Source, c: nat, offset: nat, page: seq<Event>)
    requires c < |commanders| && offset + |page| <= |src(commanders[c].fid)|
    requires page == src(commanders[c].fid)[offset..offset + |page|]
    ensures IsPage(Items(commanders, src), |ItemsTo(commanders, src, c)| + offset, commanders[c].fid, page)
    ensures |ItemsTo(commanders, src, c + 1)| == |ItemsTo(commanders, src, c)| + |src(commanders[c].fid)|
  {
    ItemsPrefix(commanders, src, c + 1, |commanders|);
    var front, all := ItemsTo(commanders, src, c), Items(commanders, src);
    forall i | 0 <= i < |page|
      ensures all[|front| + offset + i] == Item(commanders[c].fid, page[i])
    {
      assert ItemsTo(commanders, src, c + 1)[|front| + offset + i]
          == Item(commanders[c].fid, src(commanders[c].fid)[offset + i]);
    }
  }

  // ----- The run -----

  datatype Config = Config(batchSize: int, dryRun: bool)

  /** The outcome of each call, by its number; ctx.Err counts as a call. */
  type Plan = nat -> Fault

  ghost predicate NeverFails(plan: Plan) {
    forall i: nat :: plan(i).Fine?
  }

  /** ReadEvents: at most `limit` events from the offset on; a negative limit is an error. */
  method ReadEvents(src: Source, fid: string, offset: nat, limit: int, fault: Fault)
    returns (events: Option<seq<Event>>)
    requires offset <= |src(fid)|
    ensures events.Some? <==> fault.Fine? && limit >= 0
    ensures events.Some? ==> offset + |events.value| <= |src(fid)|
    ensures events.Some? ==> events.value == src(fid)[offset..offset + |events.value|]
    ensures events.Some? ==> |events.value| <= limit
    ensures events.Some? && |events.value| < limit ==> offset + |events.value| == |src(fid)|
  {
    if !fault.Fine? || limit < 0 {
      return None;
    }
    var all := src(fid);
    var end := if offset + limit < |all| then offset + limit else |all|;
    events := Some(all[offset..end]);
  }

  /** Drops the invalid events of a page and counts them. */
  method FilterPage(events: seq<Event>) returns (valid: seq<Event>, skipped: nat)
    ensures valid == ValidTo(events, |events|) && |valid| + skipped == |events|
  {
    valid, skipped := [], 0;
    for i := 0 to |events|
      invariant valid == ValidTo(events, i) && |valid| + skipped == i
    {
      if events[i].kind == "" {
        skipped := skipped + 1;
        continue;
      }
      valid := valid + [events[i]];
    }
  }

  /** The invalid ones among the first n items. */
  function InvalidTo(items: seq<Item>, n: nat): nat
    requires n <= |items|
  {
    if n == 0 then 0 else InvalidTo(items, n - 1) + if items[n - 1].event.kind == "" then 1 else 0
  }

  lemma {:induction false} PageInvalid(items: seq<Item>, n: nat, fid: string, page: seq<Event>, k: nat)
    requires IsPage(items, n, fid, page) && k <= |page|
    ensures InvalidTo(items, n + k) == InvalidTo(items, n) + k - |ValidTo(page, k)|
  {
    if k > 0 {
      PageInvalid(items, n, fid, page, k - 1);
      assert items[n + (k - 1)] == Item(fid, page[k - 1]);
    }
  }

  /** What has been read, written and counted when the first n items are dealt with. */
  ghost predicate Reached(cfg: Config, rows: Table, start: Table, items: seq<Item>, n: nat) {
    n <= |items| && rows == if cfg.dryRun then start else MergedTo(start, items, n)
  }

  ghost predicate Counted(cfg: Config, r: MigrateResult, rows: Table, start: Table, items: seq<Item>, n: nat) {
    && n <= |items|
    && r.skipped == InvalidTo(items, n)
    && (cfg.dryRun ==> r.inserted == 0 && r.duplicates == 0)
    && (!cfg.dryRun ==> r.inserted + r.duplicates + r.skipped == n && r.inserted == |rows| - |start|)
  }

  /** One page: filter it, and store what is left. On failure `done` tells whether
      the transaction took effect all the same. */
  method MigratePage(cfg: Config, fid: string, events: seq<Event>, dst: Target, fault: Fault, result: MigrateResult,
                     ghost start: Table, ghost items: seq<Item>, ghost n: nat)
    returns (ok: bool, updated: MigrateResult, ghost done: nat)
    requires IsPage(items, n, fid, events)
    requires Reached(cfg, dst.rows, start, items, n) && Counted(cfg, result, dst.rows, start, items, n)
    modifies dst`rows
    ensures Reached(cfg, dst.rows, start, items, done) && (done == n || done == n + |events|)
    ensures ok ==> done == n + |events| && Counted(cfg, updated, dst.rows, start, items, done)
    ensures fault.Fine? ==> ok
    ensures updated.commanders == result.commanders
  {
    var valid, skipped := FilterPage(events);
    PageMerges(start, items, n, fid, events, |events|);
    PageInvalid(items, n, fid, events, |events|);
    updated := result.(skipped := result.skipped + skipped);
    ok, done := true, n + |events|;
    if !cfg.dryRun && |valid| > 0 {
      var ins, dups;
      ok, ins, dups := dst.InsertEvents(fid, valid, fault);
      if !ok {
        done := if fault.Lost? then n else n + |events|;
        return;
      }
      updated := updated.(inserted := updated.inserted + ins, duplicates := updated.duplicates + dups);
    }
  }

  /** All pages of one commander. */
  method MigrateEvents(cfg: Config, commanders: seq<Commander>, c: nat, src: Source, dst: Target, plan: Plan,
        first: nat, result: MigrateResult, ghost start: Table)
    returns (ok: bool, updated: MigrateResult, calls: nat, ghost done: nat)
    requires c < |commanders|
    requires Reached(cfg, dst.rows, start, Items(commanders, src), |ItemsTo(commanders, src, c)|) || cfg.batchSize <= 0
    requires cfg.batchSize > 0 ==>
               Counted(cfg, result, dst.rows, start, Items(commanders, src), |ItemsTo(commanders, src, c)|)
    modifies dst`rows
    ensures cfg.batchSize <= 0 ==> dst.rows == old(dst.rows) && updated == result
    ensures cfg.batchSize > 0 ==> Reached(cfg, dst.rows, start, Items(commanders, src), done)
    ensures cfg.batchSize > 0 && ok ==>
              && done == |ItemsTo(commanders, src, c + 1)|
              && Counted(cfg, updated, dst.rows, start, Items(commanders, src), done)
    ensures updated.commanders == result.commanders
    ensures NeverFails(plan) && cfg.batchSize >= 0 ==> ok
  {
    var fid := commanders[c].fid;
    ghost var items, base := Items(commanders, src), |ItemsTo(commanders, src, c)|;
    PageOfItems(commanders, src, c, 0, src(fid)[0..0]);
    updated, calls, done := result, first, base;
    var offset := 0;
    while true
      invariant offset <= |src(fid)| && done == base + offset && updated.commanders == result.commanders
      invariant cfg.batchSize <= 0 ==> dst.rows == old(dst.rows) && updated == result
      invariant cfg.batchSize > 0 ==> Reached(cfg, dst.rows, start, items, done)
      invariant cfg.batchSize > 0 ==> Counted(cfg, updated, dst.rows, start, items, done)
      decreases |src(fid)| - offset
    {
      var events := ReadEvents(src, fid, offset, cfg.batchSize, plan(calls));
      calls := calls + 1;
      if events.None? {
        return false, updated, calls, done;
      }
      var page := events.value;
      if |page| == 0 {
        return true, updated, calls, done;
      }
      PageOfItems(commanders, src, c, offset, page);
      ok, updated, done := MigratePage(cfg, fid, page, dst, plan(calls), updated, start, items, done);
      calls := calls + 1;
      if !ok {
        return;
      }
      offset := offset + |page|;
      if |page| < cfg.batchSize {
        return true, updated, calls, done;
      }
    }
  }

  /** The first n commanders are stored, each under the last name listed for its FID. */
  predicate NamesStored(commanders: seq<Commander>, n: nat, names: map<string, string>)
    requires n <= |commanders|
  {
    forall c | 0 <= c < n ::
      && commanders[c].fid in names
      && ((forall d | c < d < n :: commanders[d].fid != commanders[c].fid) ==>
            names[commanders[c].fid] == commanders[c].name)
  }

  /** The run. `listed` is the answer of ListCommanders, None when it fails. A live
      run always leaves the target at the merge of some first items, and one that
      succeeds with a positive batch size has dealt with all of them. */
  method Migrate(cfg: Config, listed: Option<seq<Commander>>, src: Source, dst: Target, plan: Plan)
    returns (ok: bool, result: MigrateResult, ghost done: nat)
    modifies dst
    ensures listed.None? ==> !ok && dst.rows == old(dst.rows) && dst.commanders == old(dst.commanders)
    ensures listed.Some? && cfg.batchSize > 0 ==> Reached(cfg, dst.rows, old(dst.rows), Items(listed.value, src), done)
    ensures listed.Some? && cfg.batchSize > 0 && ok ==>
              && done == |Items(listed.value, src)|
              && Counted(cfg, result, dst.rows, old(dst.rows), Items(listed.value, src), done)
    ensures cfg.batchSize <= 0 ==>
              dst.rows == old(dst.rows) && result.inserted == result.duplicates == result.skipped == 0
    ensures cfg.dryRun ==> dst.rows == old(dst.rows) && dst.commanders == old(dst.commanders)
    ensures NeverFails(plan) && listed.Some? && cfg.batchSize >= 0 ==> ok
    ensures ok && !cfg.dryRun ==> NamesStored(listed.value, |listed.value|, dst.commanders)
    ensures result.commanders == if listed.Some? then |listed.value| else 0
  {
    result, done := MigrateResult(0, 0, 0, 0), 0;
    if listed.None? {
      return false, result, done;
    }
    var commanders := listed.value;
    result := result.(commanders := |commanders|);
    ghost var start, items := dst.rows, Items(commanders, src);
    var calls := 0;
    for c := 0 to |commanders|
      invariant cfg.batchSize <= 0 ==>
                  dst.rows == start && result.inserted == result.duplicates == result.skipped == 0
      invariant cfg.batchSize > 0 ==>
                  done == |ItemsTo(commanders, src, c)| && Reached(cfg, dst.rows, start, items, done)
      invariant cfg.batchSize > 0 ==> Counted(cfg, result, dst.rows, start, items, done)
      invariant cfg.dryRun ==> dst.commanders == old(dst.commanders)
      invariant !cfg.dryRun ==> NamesStored(commanders, c, dst.commanders)
      invariant result.commanders == |commanders|
    {
      if !plan(calls).Fine? {
        return false, result, done;
      }
      calls := calls + 1;
      if !cfg.dryRun {
        var upserted := dst.UpsertCommander(commanders[c].fid, commanders[c].name, plan(calls));
        calls := calls + 1;
        if !upserted {
          return false, result, done;
        }
      }
      ok, result, calls, done := MigrateEvents(cfg, commanders, c, src, dst, plan, calls, result, start);
      if !ok {
        return;
      }
    }
    ok := true;
  }

  // ----- Starting over -----

  /** The table after aborted runs that got so far. */
  function Aborted(t: Table, items: seq<Item>, reached: seq<nat>): Table {
    if reached == [] then t
    else
      var rest, n := Aborted(t, items, reached[..|reached| - 1]), reached[|reached| - 1];
      MergedTo(rest, items, if n <= |items| then n else |items|)
  }

  /** However often and wherever earlier runs stopped, a full run leaves the target
      as one full run on the original target would. */
  lemma {:induction false} FullRunAfterAborts(t: Table, items: seq<Item>, reached: seq<nat>)
    ensures Merged(Aborted(t, items, reached), items) == Merged(t, items)
  {
    if reached != [] {
      var rest, n := Aborted(t, items, reached[..|reached| - 1]), reached[|reached| - 1];
      FullRunAfterAborts(t, items, reached[..|reached| - 1]);
      MergeResumes(rest, items, if n <= |items| then n else |items|, |items|);
    }
  }

  /** How one giving of the command goes: whether the commanders can be listed, and
      the outcome of each later call. */
  datatype Attempt = Attempt(listed: bool, plan: Plan)

  /** The command given again and again on one target. Each attempt reports success or
      an abort; the table is always a merge of some first items, and from the first
      success on it is that of one full run on the original target. */
  method MigrateAgain(cfg: Config, attempts: seq<Attempt>, commanders: seq<Commander>, src: Source, dst: Target)
    returns (oks: seq<bool>, ghost furthest: nat)
    requires cfg.batchSize > 0 && !cfg.dryRun
    modifies dst
    ensures |oks| == |attempts|
    ensures furthest <= |Items(commanders, src)|
    ensures dst.rows == MergedTo(old(dst.rows), Items(commanders, src), furthest)
    ensures true in oks ==> dst.rows == Merged(old(dst.rows), Items(commanders, src))
    ensures forall i | 0 <= i < |attempts| && attempts[i].listed && NeverFails(attempts[i].plan) :: oks[i]
  {
    ghost var start, items := dst.rows, Items(commanders, src);
    oks, furthest := [], 0;
    for i := 0 to |attempts|
      invariant |oks| == i && furthest <= |items| && dst.rows == MergedTo(start, items, furthest)
      invariant true in oks ==> furthest == |items|
      invariant forall j | 0 <= j < i && attempts[j].listed && NeverFails(attempts[j].plan) :: oks[j]
    {
      var listed := if attempts[i].listed then Some(commanders) else None;
      ghost var before := dst.rows;
      var ok, result;
      ghost var done;
      ok, result, done := Migrate(cfg, listed, src, dst, attempts[i].plan);
      if listed.Some? {
        assert done <= |items| && dst.rows == MergedTo(before, items, done);
        MergeResumes(start, items, furthest, done);
        furthest := if furthest < done then done else furthest;
      } else {
        assert dst.rows == before;
      }
      oks := oks + [ok];
    }
  }

  /** A live run without failure is complete exactly when its batch size is positive
      or there was nothing to add: a batch size of zero reads no event and succeeds. */
  method RunLive(batchSize: nat, commanders: seq<Commander>, src: Source, dst: Target) returns (result: MigrateResult)
    modifies dst
    ensures dst.rows == Merged(old(dst.rows), Items(commanders, src))
       <==> batchSize > 0 || Merged(old(dst.rows), Items(commanders, src)) == old(dst.rows)
    ensures batchSize > 0 ==> result.inserted + result.duplicates + result.skipped == |Items(commanders, src)|
  {
    var ok;
    ghost var done;
    ok, result, done := Migrate(Config(batchSize, false), Some(commanders), src, dst, _ => Fine);
  }
}
