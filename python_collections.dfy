/** The Python containers the loggers and registries are built on: a
    `deque` with a `maxlen`, list slicing with a negative start, and a
    `dict`, which keeps its keys in insertion order. */
module PyCollections {
  import opened PyValues

  function Min(a: int, b: int): int {
    if a <= b then a else b
  }

  /** `d.append(x)` on `d = deque(s, maxlen=maxlen)`: the result is the
      longest suffix of `s + [x]` that fits in `maxlen`. */
  function BoundedAppend<T>(s: seq<T>, x: T, maxlen: nat): (r: seq<T>)
    requires |s| <= maxlen
    ensures |r| == Min(|s| + 1, maxlen) && |r| <= maxlen
  {
    if |s| < maxlen then s + [x] else (s + [x])[1..]
  }

  /** Appending to a log with room keeps every record and adds one at the end. */
  lemma BoundedAppendWithRoom<T>(s: seq<T>, x: T, maxlen: nat)
    requires |s| < maxlen
    ensures BoundedAppend(s, x, maxlen) == s + [x]
  {
  }

  /** Appending to a full log drops exactly the oldest record and keeps
      the rest in order; with `maxlen == 0` nothing is ever kept. */
  lemma {:induction false} BoundedAppendFull<T>(s: seq<T>, x: T, maxlen: nat)
    requires |s| == maxlen
    ensures maxlen > 0 ==> BoundedAppend(s, x, maxlen) == s[1..] + [x]
    ensures maxlen == 0 ==> BoundedAppend(s, x, maxlen) == []
  {
    if maxlen > 0 {
      assert (s + [x])[1..] == s[1..] + [x];
    }
  }

  /** The start index Python computes for `s[start:]`. */
  function SliceStart(start: int, len: nat): (k: nat)
    ensures k <= len
    ensures start < 0 ==> k == len - Min(-start, len)
    ensures start >= 0 ==> k == Min(start, len)
  {
    if start < 0 then (if start + len < 0 then 0 else start + len)
    else if start > len then len
    else start
  }

  /** `logs = list(memory_logs); if limit: logs = logs[-limit:]` */
  function RecentLogs<T>(s: seq<T>, limit: Option<int>): (r: seq<T>)
    ensures |r| <= |s| && r == s[|s| - |r|..]
    ensures limit == None || limit == Some(0) ==> r == s
    ensures limit.Some? && limit.value > 0 ==> |r| == Min(limit.value, |s|)
    ensures limit.Some? && limit.value < 0 ==> |r| == |s| - Min(-limit.value, |s|)
  {
    if limit == None || limit == Some(0) then s
    else s[SliceStart(-limit.value, |s|)..]
  }

  /** A positive limit returns the last `min(limit, len)` records, oldest first. */
  lemma {:induction false} RecentLogsPositive<T>(s: seq<T>, limit: int, k: nat)
    requires limit > 0 && k < Min(limit, |s|)
    ensures RecentLogs(s, Some(limit))[k] == s[|s| - Min(limit, |s|) + k]
  {
    var r := RecentLogs(s, Some(limit));
    assert r == s[|s| - |r|..];
  }

  /** Taking the records before or after mapping them gives the same list. */
  lemma {:induction false} RecentLogsMap<T, U>(s: seq<T>, f: T -> U, limit: Option<int>)
    ensures RecentLogs(seq(|s|, i requires 0 <= i < |s| => f(s[i])), limit)
         == (var r := RecentLogs(s, limit); seq(|r|, i requires 0 <= i < |r| => f(r[i])))
  {
  }

  /** A Python `dict` from str: `keys` in insertion order, `values` the mapping. */
  datatype Dict<V> = Dict(keys: seq<string>, values: map<string, V>) {
    ghost predicate Valid() {
      && (forall i, j :: 0 <= i < j < |keys| ==> keys[i] != keys[j])
      && (forall k :: k in values <==> k in keys)
    }

    /** `d[k] = v`: an existing key keeps its place, a new key goes last. */
    function Put(k: string, v: V): (d: Dict<V>)
      ensures d.values == values[k := v]
      ensures k in values ==> d.keys == keys
      ensures k !in values ==> d.keys == keys + [k]
      ensures Valid() ==> d.Valid()
    {
      if k in values then Dict(keys, values[k := v]) else Dict(keys + [k], values[k := v])
    }
  }

  function EmptyDict<V>(): (d: Dict<V>)
    ensures d.Valid() && d.keys == [] && d.values == map[]
  {
    Dict([], map[])
  }

  /** `for k, v in items: d[k] = v` */
  function PutAll<V>(d: Dict<V>, items: seq<(string, V)>): (r: Dict<V>)
    ensures d.Valid() ==> r.Valid()
  {
    if items == [] then d
    else PutAll(d, items[..|items| - 1]).Put(items[|items| - 1].0, items[|items| - 1].1)
  }

  /** The mapping a run of assignments leaves, the last one for a key winning. */
  function ItemsMap<V>(items: seq<(string, V)>): map<string, V> {
    if items == [] then map[]
    else ItemsMap(items[..|items| - 1])[items[|items| - 1].0 := items[|items| - 1].1]
  }

  /** The keys a run of assignments names, in order. */
  function ItemKeys<V>(items: seq<(string, V)>): (ks: seq<string>)
    ensures |ks| == |items| && forall i :: 0 <= i < |items| ==> ks[i] == items[i].0
  {
    seq(|items|, i requires 0 <= i < |items| => items[i].0)
  }

  /** Only assigned keys end up in the mapping. */
  lemma {:induction false} ItemsMapDomain<V>(items: seq<(string, V)>, k: string)
    ensures k in ItemsMap(items) ==> k in ItemKeys(items)
  {
    if items != [] && k in ItemsMap(items) {
      var init := items[..|items| - 1];
      if k != items[|items| - 1].0 {
        ItemsMapDomain(init, k);
        var j :| 0 <= j < |init| && ItemKeys(init)[j] == k;
        assert ItemKeys(items)[j] == k;
      } else {
        assert ItemKeys(items)[|items| - 1] == k;
      }
    }
  }

  /** Assigning distinct keys that are all new appends them to the key
      order, in the order they were assigned. */
  lemma {:induction false} PutAllFreshKeys<V>(d: Dict<V>, items: seq<(string, V)>)
    requires forall a, b :: 0 <= a < b < |items| ==> items[a].0 != items[b].0
    requires forall a :: 0 <= a < |items| ==> items[a].0 !in d.values
    ensures PutAll(d, items).keys == d.keys + ItemKeys(items)
  {
    if items != [] {
      var init := items[..|items| - 1];
      var last := items[|items| - 1].0;
      assert forall a :: 0 <= a < |init| ==> init[a] == items[a];
      PutAllFreshKeys(d, init);
      PutAllValues(d, init);
      assert forall j :: 0 <= j < |init| ==> ItemKeys(init)[j] != last;
      ItemsMapDomain(init, last);
      assert ItemKeys(items) == ItemKeys(init) + [last];
    }
  }

  lemma {:induction false} PutAllValues<V>(d: Dict<V>, items: seq<(string, V)>)
    ensures PutAll(d, items).values == d.values + ItemsMap(items)
  {
    if items != [] {
      PutAllValues(d, items[..|items| - 1]);
    }
  }

  lemma {:induction false} ItemsMapKeys<V>(items: seq<(string, V)>, i: nat)
    requires i < |items|
    ensures items[i].0 in ItemsMap(items)
  {
    if i < |items| - 1 {
      assert items[..|items| - 1][i] == items[i];
      ItemsMapKeys(items[..|items| - 1], i);
    }
  }

  /** With no key assigned twice, each key ends up holding the value
      assigned to it. */
  lemma {:induction false} ItemsMapDistinct<V>(items: seq<(string, V)>, i: nat)
    requires forall a, b :: 0 <= a < b < |items| ==> items[a].0 != items[b].0
    requires i < |items|
    ensures items[i].0 in ItemsMap(items) && ItemsMap(items)[items[i].0] == items[i].1
  {
    var init := items[..|items| - 1];
    if i < |items| - 1 {
      assert init[i] == items[i];
      assert forall a, b :: 0 <= a < b < |init| ==> init[a].0 != init[b].0 by {
        forall a, b | 0 <= a < b < |init| ensures init[a].0 != init[b].0 {
          assert init[a] == items[a] && init[b] == items[b];
        }
      }
      ItemsMapDistinct(init, i);
      assert items[i].0 != items[|items| - 1].0;
    }
  }

  lemma PutAllDistinct<V>(d: Dict<V>, items: seq<(string, V)>, i: nat)
    requires forall a, b :: 0 <= a < b < |items| ==> items[a].0 != items[b].0
    requires i < |items|
    ensures items[i].0 in PutAll(d, items).values && PutAll(d, items).values[items[i].0] == items[i].1
  {
    PutAllValues(d, items);
    ItemsMapDistinct(items, i);
  }

  /** Assigning only keys that are already present leaves the key order alone. */
  lemma {:induction false} PutAllKnownKeys<V>(d: Dict<V>, items: seq<(string, V)>)
    requires forall i :: 0 <= i < |items| ==> items[i].0 in d.values
    ensures PutAll(d, items).keys == d.keys
  {
    if items != [] {
      var init := items[..|items| - 1];
      assert forall i :: 0 <= i < |init| ==> init[i] == items[i];
      PutAllKnownKeys(d, init);
      PutAllValues(d, init);
    }
  }

  /** After the assignments every assigned key is present. */
  lemma PutAllContains<V>(d: Dict<V>, items: seq<(string, V)>, i: nat)
    requires i < |items|
    ensures items[i].0 in PutAll(d, items).values
  {
    PutAllValues(d, items);
    ItemsMapKeys(items, i);
  }

  /** Running the same assignments twice is the same as running them once. */
  lemma {:induction false} PutAllIdempotent<V>(d: Dict<V>, items: seq<(string, V)>)
    ensures PutAll(PutAll(d, items), items) == PutAll(d, items)
  {
    var once := PutAll(d, items);
    forall i | 0 <= i < |items| ensures items[i].0 in once.values {
      PutAllContains(d, items, i);
    }
    PutAllKnownKeys(once, items);
    PutAllValues(once, items);
    PutAllValues(d, items);
    assert (d.values + ItemsMap(items)) + ItemsMap(items) == d.values + ItemsMap(items);
  }
}
