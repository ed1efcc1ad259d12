/** The driver's mission list (frontend-chauffeur/src/components/ListeMissions.jsx):
    the empty state, and the grouping by date with no validity filter. */
module ChauffeurListe {
  import opened Base
  import opened MissionModel
  import DateGroups
  import StringOrder

  /** Every mission is kept. */
  predicate KeepAll(m: Mission)
  {
    true
  }

  /** `acc[date]` turns the date into a property key. */
  function DateKey(m: Mission): string
  {
    JsString(m.date_mission)
  }

  datatype View = EmptyState | ByDate(sortedDates: seq<string>, groups: DateGroups.Grouping)

  function Render(ms: seq<Mission>): (v: View)
    ensures v.EmptyState? <==> ms == []
  {
    if |ms| == 0 then EmptyState
    else
      var g := DateGroups.Grouped(ms, KeepAll, DateKey);
      ByDate(DateGroups.SortedKeys(g), g)
  }

  /** Every mission is in exactly the group keyed by its date, in input
      order; the group sizes add up to the list length; the dates are shown
      in ascending order, each group key once. */
  lemma RenderSpec(ms: seq<Mission>)
    requires ms != []
    ensures var v := Render(ms);
      (forall m, k :: m in DateGroups.GroupOf(v.groups, k) <==> m in ms && DateKey(m) == k)
      && DateGroups.SumSizes(v.groups.keys, v.groups.groups) == |ms|
      && (forall k :: k in v.sortedDates <==> k in v.groups.groups)
      && (forall i, j :: 0 <= i < j < |v.sortedDates| ==> StringOrder.SortLe(v.sortedDates[i], v.sortedDates[j]))
  {
    DateGroups.GroupedSpec(ms, KeepAll, DateKey);
    DateGroups.GroupedSizes(ms, KeepAll, DateKey);
    DateGroups.SortedKeysAreGroupKeys(ms, KeepAll, DateKey);
    NothingDropped(ms);
  }

  lemma {:induction false} NothingDropped(ms: seq<Mission>)
    ensures DateGroups.Dropped(ms, KeepAll) == 0
  {
    if ms != [] {
      NothingDropped(ms[..|ms| - 1]);
    }
  }
}
