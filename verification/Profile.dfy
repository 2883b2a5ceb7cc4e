/**
 The profile cache: change callbacks scan a table of categories, replace the cached value of the
 category whose key changed, and signal the change. Each callback scans the table once per row.
 */
module Profile {
  import opened Wrappers

  /** One row of category_tone or category_volume. */
  datatype Row = Row(id: string, key: Option<string>)

  datatype Change<V> = Change(id: string, was: V, now: V)

  /** A table whose cached values are looked up with `absent` for an id that is not cached. */
  function Lookup<V>(m: map<string, V>, id: string, absent: V): V {
    if id in m then m[id] else absent
  }

  /** One scan: rows of other keys are skipped, a row that has the value already ends the scan. */
  function Scan<V(==)>(rows: seq<Row>, m: map<string, V>, key: string, v: V, absent: V): (map<string, V>, seq<Change<V>>) {
    if rows == [] then (m, [])
    else if rows[0].key != Some(key) then Scan(rows[1..], m, key, v, absent)
    else
      var id := rows[0].id;
      if Lookup(m, id, absent) == v then (m, [])
      else
        var (m1, cs) := Scan(rows[1..], m[id := v], key, v, absent);
        (m1, [Change(id, Lookup(m, id, absent), v)] + cs)
  }

  function Scans<V(==)>(n: nat, rows: seq<Row>, m: map<string, V>, key: string, v: V, absent: V): (map<string, V>, seq<Change<V>>) {
    if n == 0 then (m, [])
    else
      var (m1, cs1) := Scans(n - 1, rows, m, key, v, absent);
      var (m2, cs2) := Scan(rows, m1, key, v, absent);
      (m2, cs1 + cs2)
  }

  /** A callback: as many scans as there are rows. */
  function Deliver<V(==)>(rows: seq<Row>, m: map<string, V>, key: string, v: V, absent: V): (map<string, V>, seq<Change<V>>) {
    Scans(|rows|, rows, m, key, v, absent)
  }

  // ---------------------------------------------------------------- one delivery

  /** No two rows have the same key. */
  ghost predicate DistinctKeys(rows: seq<Row>) {
    forall i, j :: 0 <= i < j < |rows| && rows[i].key.Some? ==> rows[i].key != rows[j].key
  }

  ghost predicate DistinctIds(rows: seq<Row>) {
    forall i, j :: 0 <= i < j < |rows| ==> rows[i].id != rows[j].id
  }

  /** What a delivery is for: the value of the one row of the key, and a signal if it changed. */
  function Write<V(==)>(m: map<string, V>, id: string, v: V, absent: V): (map<string, V>, seq<Change<V>>) {
    if Lookup(m, id, absent) == v then (m, []) else (m[id := v], [Change(id, Lookup(m, id, absent), v)])
  }

  lemma NothingAdded<V>(cs: seq<Change<V>>)
    ensures cs + [] == cs && [] + cs == cs
  {
  }

  lemma {:induction false} ScanSkips<V>(rows: seq<Row>, m: map<string, V>, key: string, v: V, absent: V)
    requires forall k :: 0 <= k < |rows| ==> rows[k].key != Some(key)
    ensures Scan(rows, m, key, v, absent) == (m, [])
  {
    if rows != [] {
      ScanSkips(rows[1..], m, key, v, absent);
    }
  }

  lemma {:induction false} ScanWrites<V>(rows: seq<Row>, k: nat, m: map<string, V>, v: V, absent: V)
    requires DistinctKeys(rows) && k < |rows| && rows[k].key.Some?
    ensures Scan(rows, m, rows[k].key.value, v, absent) == Write(m, rows[k].id, v, absent)
  {
    var key := rows[k].key.value;
    if k == 0 {
      ScanSkips(rows[1..], m[rows[0].id := v], key, v, absent);
      NothingAdded([Change(rows[0].id, Lookup(m, rows[0].id, absent), v)]);
    } else {
      assert rows[0].key != rows[k].key;
      ScanWrites(rows[1..], k - 1, m, v, absent);
    }
  }

  /** With distinct keys, all the scans together are one write with at most one signal. */
  lemma {:induction false} ScansWriteOnce<V>(n: nat, rows: seq<Row>, k: nat, m: map<string, V>, v: V, absent: V)
    requires DistinctKeys(rows) && k < |rows| && rows[k].key.Some? && n > 0
    ensures Scans(n, rows, m, rows[k].key.value, v, absent) == Write(m, rows[k].id, v, absent)
  {
    ScanWrites(rows, k, m, v, absent);
    if n > 1 {
      ScansWriteOnce(n - 1, rows, k, m, v, absent);
      ScanWrites(rows, k, Write(m, rows[k].id, v, absent).0, v, absent);
    } else {
      assert Scans(0, rows, m, rows[k].key.value, v, absent) == (m, []);
    }
    NothingAdded(Write(m, rows[k].id, v, absent).1);
  }

  lemma {:induction false} ScansSkip<V>(n: nat, rows: seq<Row>, m: map<string, V>, key: string, v: V, absent: V)
    requires forall k :: 0 <= k < |rows| ==> rows[k].key != Some(key)
    ensures Scans(n, rows, m, key, v, absent) == (m, [])
  {
    if n > 0 {
      ScansSkip(n - 1, rows, m, key, v, absent);
      ScanSkips(rows, m, key, v, absent);
      NothingAdded<V>([]);
    }
  }

  /** All rows of the key have the delivered value. */
  ghost predicate Delivered<V>(rows: seq<Row>, m: map<string, V>, key: string, v: V, absent: V) {
    forall k :: 0 <= k < |rows| && rows[k].key == Some(key) ==> Lookup(m, rows[k].id, absent) == v
  }

  lemma {:induction false} ScanStopsAtOnce<V>(rows: seq<Row>, first: nat, m: map<string, V>, key: string, v: V, absent: V)
    requires first < |rows| && rows[first].key == Some(key) && Lookup(m, rows[first].id, absent) == v
    requires forall k :: 0 <= k < first ==> rows[k].key != Some(key)
    ensures Scan(rows, m, key, v, absent) == (m, [])
  {
    if first > 0 {
      ScanStopsAtOnce(rows[1..], first - 1, m, key, v, absent);
    }
  }

  lemma {:induction false} ScansStopAtOnce<V>(n: nat, rows: seq<Row>, m: map<string, V>, key: string, v: V, absent: V)
    requires Scan(rows, m, key, v, absent) == (m, [])
    ensures Scans(n, rows, m, key, v, absent) == (m, [])
  {
    if n > 0 {
      ScansStopAtOnce(n - 1, rows, m, key, v, absent);
      NothingAdded<V>([]);
    }
  }

  lemma {:induction false} FirstOf(rows: seq<Row>, i: nat) returns (first: nat)
    requires i < |rows|
    ensures first <= i && rows[first].key == rows[i].key
    ensures forall k :: 0 <= k < first ==> rows[k].key != rows[i].key
  {
    first := 0;
    while rows[first].key != rows[i].key
      invariant first <= i
      invariant forall k :: 0 <= k < first ==> rows[k].key != rows[i].key
      decreases i - first
    {
      first := first + 1;
    }
  }

  /** Every row has a cached value. */
  ghost predicate AllCached<V>(rows: seq<Row>, m: map<string, V>) {
    forall k :: 0 <= k < |rows| ==> rows[k].id in m
  }

  /** The value v is cached for every row but one. */
  function AllBut<V>(rows: seq<Row>, id: string, v: V, other: V): map<string, V> {
    map k | 0 <= k < |rows| :: rows[k].id := if rows[k].id == id then other else v
  }

  /** A shared key loses an update: the row that has the value already hides the one that has not. */
  lemma SharedKeyLosesUpdate<V>(rows: seq<Row>, i: nat, j: nat, v: V, other: V, absent: V)
    requires DistinctIds(rows) && i < j < |rows| && rows[i].key.Some? && rows[i].key == rows[j].key && v != other
    ensures var key, m := rows[i].key.value, AllBut(rows, rows[j].id, v, other);
            && AllCached(rows, m)
            && Deliver(rows, m, key, v, absent) == (m, []) && !Delivered(rows, m, key, v, absent)
  {
    var key, m := rows[i].key.value, AllBut(rows, rows[j].id, v, other);
    var first := FirstOf(rows, i);
    assert forall k :: 0 <= k < |rows| ==> rows[k].id in m;
    assert rows[first].id != rows[j].id;
    ScanStopsAtOnce(rows, first, m, key, v, absent);
    ScansStopAtOnce(|rows|, rows, m, key, v, absent);
    assert Lookup(m, rows[j].id, absent) == other;
  }

  /** With every row cached, every delivery reaches every row of its key exactly when no key is shared. */
  lemma DeliveryNeedsDistinctKeys<V>(rows: seq<Row>, a: V, b: V, absent: V)
    requires DistinctIds(rows) && a != b
    ensures DistinctKeys(rows) <==>
            (forall m: map<string, V>, key: string, v: V :: AllCached(rows, m) ==>
               Delivered(rows, Deliver(rows, m, key, v, absent).0, key, v, absent))
  {
    if DistinctKeys(rows) {
      forall m: map<string, V>, key: string, v: V | AllCached(rows, m)
        ensures Delivered(rows, Deliver(rows, m, key, v, absent).0, key, v, absent)
      {
        DistinctKeysDeliver(rows, m, key, v, absent);
      }
    } else {
      var i, j :| 0 <= i < j < |rows| && rows[i].key.Some? && rows[i].key == rows[j].key;
      SharedKeyLosesUpdate(rows, i, j, a, b, absent);
      var m := AllBut(rows, rows[j].id, a, b);
      assert !Delivered(rows, Deliver(rows, m, rows[i].key.value, a, absent).0, rows[i].key.value, a, absent);
    }
  }

  /** With distinct keys it does so whatever is cached. */
  lemma DistinctKeysDeliver<V>(rows: seq<Row>, m: map<string, V>, key: string, v: V, absent: V)
    requires DistinctKeys(rows)
    ensures Delivered(rows, Deliver(rows, m, key, v, absent).0, key, v, absent)
  {
    forall k | 0 <= k < |rows| && rows[k].key == Some(key)
      ensures Lookup(Deliver(rows, m, key, v, absent).0, rows[k].id, absent) == v
    {
      ScansWriteOnce(|rows|, rows, k, m, v, absent);
    }
  }

  // ---------------------------------------------------------------- runs

  datatype Delivery<V> = Delivery(key: string, value: V)

  function Run<V(==)>(rows: seq<Row>, m: map<string, V>, ds: seq<Delivery<V>>, absent: V): (map<string, V>, seq<Change<V>>) {
    if ds == [] then (m, [])
    else
      var (m1, cs1) := Run(rows, m, ds[..|ds| - 1], absent);
      var d := ds[|ds| - 1];
      var (m2, cs2) := Deliver(rows, m1, d.key, d.value, absent);
      (m2, cs1 + cs2)
  }

  /** The value delivered last for a key, or the initial one. */
  function Last<V>(ds: seq<Delivery<V>>, key: string, initial: V): V {
    if ds == [] then initial
    else if ds[|ds| - 1].key == key then ds[|ds| - 1].value
    else Last(ds[..|ds| - 1], key, initial)
  }

  /** The real changes among the values delivered for a key, each with the value before it. */
  function Changes<V(==)>(ds: seq<Delivery<V>>, key: string, id: string, initial: V): seq<Change<V>> {
    if ds == [] then []
    else
      var before, d := ds[..|ds| - 1], ds[|ds| - 1];
      Changes(before, key, id, initial) +
      if d.key == key && d.value != Last(before, key, initial) then [Change(id, Last(before, key, initial), d.value)]
      else []
  }

  /** The signals about one id, in the order of their emission. */
  function About<V>(cs: seq<Change<V>>, id: string): seq<Change<V>> {
    if cs == [] then []
    else About(cs[..|cs| - 1], id) + if cs[|cs| - 1].id == id then [cs[|cs| - 1]] else []
  }

  lemma AboutAppend<V>(cs: seq<Change<V>>, c: Change<V>, id: string)
    ensures About(cs + [c], id) == About(cs, id) + if c.id == id then [c] else []
  {
    assert (cs + [c])[..|cs|] == cs;
  }

  /**
   After any deliveries, what is cached for a category is the value delivered last for its key, and its
   signals are exactly the real changes, each with the value that was signalled before it.
   */
  lemma {:induction false} CacheIsLastWrite<V>(rows: seq<Row>, m: map<string, V>, ds: seq<Delivery<V>>, absent: V, k: nat)
    requires DistinctKeys(rows) && DistinctIds(rows) && k < |rows| && rows[k].key.Some?
    ensures var (r, cs) := Run(rows, m, ds, absent);
            var id, key, initial := rows[k].id, rows[k].key.value, Lookup(m, rows[k].id, absent);
            && Lookup(r, id, absent) == Last(ds, key, initial)
            && About(cs, id) == Changes(ds, key, id, initial)
  {
    hide Deliver;
    if ds != [] {
      var before, d := ds[..|ds| - 1], ds[|ds| - 1];
      CacheIsLastWrite(rows, m, before, absent, k);
      DeliveryIsWrite(rows, Run(rows, m, before, absent).0, d, absent, k);
      var cs1, cs2 := Run(rows, m, before, absent).1, Deliver(rows, Run(rows, m, before, absent).0, d.key, d.value, absent).1;
      AboutOneMore(cs1, cs2, rows[k].id);
    }
  }

  lemma AboutOneMore<V>(cs: seq<Change<V>>, more: seq<Change<V>>, id: string)
    requires |more| <= 1
    ensures About(cs + more, id) == About(cs, id) + if more != [] && more[0].id == id then more else []
  {
    if more == [] {
      assert cs + more == cs;
    } else {
      AboutAppend(cs, more[0], id);
      assert more == [more[0]];
    }
  }

  /** What one delivery means for one row. */
  lemma DeliveryIsWrite<V>(rows: seq<Row>, m: map<string, V>, d: Delivery<V>, absent: V, k: nat)
    requires DistinctKeys(rows) && DistinctIds(rows) && k < |rows| && rows[k].key.Some?
    ensures var (r, cs) := Deliver(rows, m, d.key, d.value, absent);
            && |cs| <= 1
            && (if d.key == rows[k].key.value then (r, cs) == Write(m, rows[k].id, d.value, absent)
                else Lookup(r, rows[k].id, absent) == Lookup(m, rows[k].id, absent) && (cs != [] ==> cs[0].id != rows[k].id))
  {
    if j :| 0 <= j < |rows| && rows[j].key == Some(d.key) {
      ScansWriteOnce(|rows|, rows, j, m, d.value, absent);
    } else {
      ScansSkip(|rows|, rows, m, d.key, d.value, absent);
    }
  }

  lemma RunAppend<V>(rows: seq<Row>, m: map<string, V>, ds: seq<Delivery<V>>, d: Delivery<V>, absent: V)
    ensures var (m1, cs1) := Run(rows, m, ds, absent);
            var (m2, cs2) := Deliver(rows, m1, d.key, d.value, absent);
            Run(rows, m, ds + [d], absent) == (m2, cs1 + cs2)
  {
    assert (ds + [d])[..|ds|] == ds;
  }

  // ---------------------------------------------------------------- the system sound level

  /** The level when the cache is made. */
  function InitialLevel(level: int): int {
    if level <= 1 then (if level == 1 then 50 else 0) else 80
  }

  /** And when a change is delivered. */
  function ChangedLevel(level: int): int {
    if level <= 1 then (if level == 1 then 40 else 0) else 70
  }

  /** The cached level and the signals after the cache was made and these levels were delivered. */
  function Levels(first: int, delivered: seq<int>): (int, seq<int>) {
    if delivered == [] then (InitialLevel(first), [])
    else
      var (now, signals) := Levels(first, delivered[..|delivered| - 1]);
      var next := ChangedLevel(delivered[|delivered| - 1]);
      (next, if next == now then signals else signals + [next])
  }

  lemma LevelsAppend(first: int, delivered: seq<int>, level: int)
    ensures var (now, signals) := Levels(first, delivered);
            Levels(first, delivered + [level]) ==
              (ChangedLevel(level), if ChangedLevel(level) == now then signals else signals + [ChangedLevel(level)])
  {
    assert (delivered + [level])[..|delivered|] == delivered;
  }

  /** No two signals in a row are the same, and the last one, or the level at first, is the cached level. */
  lemma {:induction false} LevelSignalsAreChanges(first: int, delivered: seq<int>)
    ensures var (now, signals) := Levels(first, delivered);
            && now == (if signals == [] then InitialLevel(first) else signals[|signals| - 1])
            && (signals != [] ==> signals[0] != InitialLevel(first))
            && forall k :: 0 < k < |signals| ==> signals[k - 1] != signals[k]
  {
    if delivered != [] {
      LevelSignalsAreChanges(first, delivered[..|delivered| - 1]);
    }
  }

  /** Delivering the level that the cache was made with signals a change exactly when it is not silent. */
  lemma SameLevelSignals(level: int)
    ensures Levels(level, [level]).1 != [] <==> level >= 1
  {
    LevelsAppend(level, [], level);
    assert [] + [level] == [level];
  }

  /** The level last delivered decides, and so does the first one while none was: silent, quiet or loud. */
  lemma LastLevelDecides(first: int, delivered: seq<int>)
    ensures var now := Levels(first, delivered).0;
            var last := if delivered == [] then first else delivered[|delivered| - 1];
            && (last <= 0 <==> now == 0)
            && (delivered == [] ==> (last == 1 <==> now == 50) && (last >= 2 <==> now == 80))
            && (delivered != [] ==> (last == 1 <==> now == 40) && (last >= 2 <==> now == 70))
  {
  }
}
