/** Grouping a mission list by date, as both clients do with
    `missions.reduce((acc, m) => { … acc[date].push(m) … }, {})` followed by
    `Object.keys(acc).sort()`. The accumulator object is its keys in order of
    first insertion and a map from key to the pushed missions. Which missions
    are kept and which key each gets are parameters. */
module DateGroups {
  import opened MissionModel
  import StringOrder
  import Sorting

  datatype Grouping = Grouping(keys: seq<string>, groups: map<string, seq<Mission>>)

  /** The accumulator invariant: every key is listed once and only keys are
      listed. */
  ghost predicate WellFormed(g: Grouping)
  {
    (forall i, j :: 0 <= i < j < |g.keys| ==> g.keys[i] != g.keys[j])
    && (forall k :: k in g.groups <==> k in g.keys)
    && (forall k :: k in g.groups ==> g.groups[k] != [])
  }

  /** `acc[k] || []`. */
  function GroupOf(g: Grouping, k: string): seq<Mission>
  {
    if k in g.groups then g.groups[k] else []
  }

  /** One step of the reduce: a dropped mission leaves the accumulator alone;
      a kept one is pushed onto its key's array, created when missing. */
  function Push(g: Grouping, m: Mission, keep: Mission -> bool, keyOf: Mission -> string): Grouping
  {
    if !keep(m) then g
    else
      var k := keyOf(m);
      if k in g.groups then Grouping(g.keys, g.groups[k := g.groups[k] + [m]])
      else Grouping(g.keys + [k], g.groups[k := [m]])
  }

  /** The reduce over the whole list, from the left. */
  function Grouped(ms: seq<Mission>, keep: Mission -> bool, keyOf: Mission -> string): Grouping
  {
    if ms == [] then Grouping([], map[])
    else Push(Grouped(ms[..|ms| - 1], keep, keyOf), ms[|ms| - 1], keep, keyOf)
  }

  /** The kept missions with key `k`, in input order: the independent
      description of one group. */
  function Select(ms: seq<Mission>, keep: Mission -> bool, keyOf: Mission -> string, k: string): (r: seq<Mission>)
    ensures forall m :: m in r <==> m in ms && keep(m) && keyOf(m) == k
  {
    if ms == [] then []
    else
      var m := ms[|ms| - 1];
      assert ms == ms[..|ms| - 1] + [m];
      Select(ms[..|ms| - 1], keep, keyOf, k) + (if keep(m) && keyOf(m) == k then [m] else [])
  }

  /** The missions the grouping drops. */
  function Dropped(ms: seq<Mission>, keep: Mission -> bool): (n: nat)
    ensures n <= |ms|
  {
    if ms == [] then 0 else Dropped(ms[..|ms| - 1], keep) + (if keep(ms[|ms| - 1]) then 0 else 1)
  }

  /** The sizes of the groups, summed over the listed keys. */
  function SumSizes(keys: seq<string>, groups: map<string, seq<Mission>>): nat
  {
    if keys == [] then 0
    else
      var k := keys[|keys| - 1];
      SumSizes(keys[..|keys| - 1], groups) + (if k in groups then |groups[k]| else 0)
  }

  /** One push keeps the accumulator well formed and extends only the group
      of the pushed mission's key. */
  lemma PushSpec(g: Grouping, m: Mission, keep: Mission -> bool, keyOf: Mission -> string)
    requires WellFormed(g)
    ensures WellFormed(Push(g, m, keep, keyOf))
    ensures forall k :: GroupOf(Push(g, m, keep, keyOf), k)
                     == GroupOf(g, k) + (if keep(m) && keyOf(m) == k then [m] else [])
  {
  }

  /** Every kept mission is in exactly the group keyed by its key, in input
      order; a key is present exactly when its group is non-empty; the
      accumulator stays well formed. */
  lemma {:induction false} GroupedSpec(ms: seq<Mission>, keep: Mission -> bool, keyOf: Mission -> string)
    ensures WellFormed(Grouped(ms, keep, keyOf))
    ensures forall k :: GroupOf(Grouped(ms, keep, keyOf), k) == Select(ms, keep, keyOf, k)
    ensures forall k :: k in Grouped(ms, keep, keyOf).groups <==> Select(ms, keep, keyOf, k) != []
  {
    if ms != [] {
      var init := ms[..|ms| - 1];
      GroupedSpec(init, keep, keyOf);
      PushSpec(Grouped(init, keep, keyOf), ms[|ms| - 1], keep, keyOf);
    }
  }

  /** Changing groups outside the listed keys does not change the sum. */
  lemma {:induction false} SumSizesFrame(keys: seq<string>, g: map<string, seq<Mission>>, h: map<string, seq<Mission>>)
    requires forall k :: k in keys ==> (k in g <==> k in h) && (k in g ==> |g[k]| == |h[k]|)
    ensures SumSizes(keys, g) == SumSizes(keys, h)
  {
    if keys != [] {
      SumSizesFrame(keys[..|keys| - 1], g, h);
    }
  }

  /** Growing one listed group by one mission grows the sum by one. */
  lemma {:induction false} SumSizesGrow(keys: seq<string>, g: map<string, seq<Mission>>, k: string, m: Mission)
    requires k in g && k in keys
    requires forall i, j :: 0 <= i < j < |keys| ==> keys[i] != keys[j]
    ensures SumSizes(keys, g[k := g[k] + [m]]) == SumSizes(keys, g) + 1
  {
    var init := keys[..|keys| - 1];
    var last := keys[|keys| - 1];
    if last == k {
      assert k !in init;
      SumSizesFrame(init, g, g[k := g[k] + [m]]);
    } else {
      assert k in init;
      SumSizesGrow(init, g, k, m);
    }
  }

  /** The dropped missions and the grouped ones account for the whole list. */
  lemma {:induction false} GroupedSizes(ms: seq<Mission>, keep: Mission -> bool, keyOf: Mission -> string)
    ensures Dropped(ms, keep) + SumSizes(Grouped(ms, keep, keyOf).keys, Grouped(ms, keep, keyOf).groups) == |ms|
  {
    if ms != [] {
      var init := ms[..|ms| - 1];
      var m := ms[|ms| - 1];
      GroupedSizes(init, keep, keyOf);
      GroupedSpec(init, keep, keyOf);
      var g := Grouped(init, keep, keyOf);
      if keep(m) {
        var k := keyOf(m);
        if k in g.groups {
          SumSizesGrow(g.keys, g.groups, k, m);
        } else {
          var h := g.groups[k := [m]];
          assert (g.keys + [k])[..|g.keys|] == g.keys;
          SumSizesFrame(g.keys, g.groups, h);
        }
      }
    }
  }

  /** `Object.keys(acc).sort()`: the keys in ascending order, each once. */
  function SortedKeys(g: Grouping): (ks: seq<string>)
    ensures multiset(ks) == multiset(g.keys)
    ensures Sorting.SortedBy(ks, StringOrder.SortLe)
  {
    assert Sorting.Total(StringOrder.SortLe) by {
      forall a, b ensures StringOrder.SortLe(a, b) || StringOrder.SortLe(b, a) {
        StringOrder.LeTotal(StringOrder.CodeUnits, a, b);
      }
    }
    assert Sorting.Transitive(StringOrder.SortLe) by {
      forall a, b, c | StringOrder.SortLe(a, b) && StringOrder.SortLe(b, c) ensures StringOrder.SortLe(a, c) {
        StringOrder.LeTransitive(StringOrder.CodeUnits, a, b, c);
      }
    }
    Sorting.SortBySorted(g.keys, StringOrder.SortLe);
    Sorting.SortBy(g.keys, StringOrder.SortLe)
  }

  /** The sorted keys are exactly the group keys. */
  lemma SortedKeysAreGroupKeys(ms: seq<Mission>, keep: Mission -> bool, keyOf: Mission -> string)
    ensures var g := Grouped(ms, keep, keyOf);
      forall k :: k in SortedKeys(g) <==> k in g.groups
  {
    GroupedSpec(ms, keep, keyOf);
    var g := Grouped(ms, keep, keyOf);
    forall k ensures k in SortedKeys(g) <==> k in g.keys {
      assert k in SortedKeys(g) <==> k in multiset(SortedKeys(g));
      assert k in g.keys <==> k in multiset(g.keys);
    }
  }

  /** The reduce as the loop it performs, proved against `Grouped`. */
  method GroupByDate(ms: seq<Mission>, keep: Mission -> bool, keyOf: Mission -> string)
    returns (keys: seq<string>, groups: map<string, seq<Mission>>)
    ensures Grouping(keys, groups) == Grouped(ms, keep, keyOf)
  {
    keys, groups := [], map[];
    var i := 0;
    while i < |ms|
      invariant 0 <= i <= |ms|
      invariant Grouping(keys, groups) == Grouped(ms[..i], keep, keyOf)
    {
      assert ms[..i + 1][..i] == ms[..i];
      var m := ms[i];
      if keep(m) {
        var k := keyOf(m);
        if k in groups {
          groups := groups[k := groups[k] + [m]];
        } else {
          keys := keys + [k];
          groups := groups[k := [m]];
        }
      }
      i := i + 1;
    }
    assert ms[..|ms|] == ms;
  }
}
