/** The driver's dashboard of the web client
    (frontend/src/components/Chauffeur/Dashboard.jsx): the four counters
    computed from the driver's missions, and when they are loaded. Today's
    date is a parameter. */
module ChauffeurDashboard {
  import opened Base
  import opened MissionModel

  datatype Stats = Stats(today: nat, pending: nat, inProgress: nat, completed: nat)

  const Pending: set<Status> := {Envoyee, Confirmee}

  /** The missions dated `today` (`m.date_mission === today`). */
  function OnDate(ms: seq<Mission>, today: string): (r: seq<Mission>)
    ensures |r| <= |ms|
    ensures forall m :: m in r <==> m in ms && m.date_mission == Str(today)
  {
    if ms == [] then []
    else (if ms[0].date_mission == Str(today) then [ms[0]] else []) + OnDate(ms[1..], today)
  }

  /** Each mission dated today is kept as often as it occurs in the list, and
      no other is kept. */
  lemma {:induction false} OnDateCounts(ms: seq<Mission>, today: string, m: Mission)
    ensures multiset(OnDate(ms, today))[m] == if m.date_mission == Str(today) then multiset(ms)[m] else 0
  {
    if ms != [] {
      assert ms == [ms[0]] + ms[1..];
      OnDateCounts(ms[1..], today, m);
    }
  }

  /** The filter keeps the order of the list: it distributes over
      concatenation. */
  lemma {:induction false} OnDateKeepsOrder(a: seq<Mission>, b: seq<Mission>, today: string)
    ensures OnDate(a + b, today) == OnDate(a, today) + OnDate(b, today)
  {
    if a == [] {
      assert a + b == b;
    } else {
      assert (a + b)[0] == a[0] && (a + b)[1..] == a[1..] + b;
      OnDateKeepsOrder(a[1..], b, today);
    }
  }

  /** The counters `loadStats` computes. */
  function ComputeStats(ms: seq<Mission>, today: string): (s: Stats)
    ensures s.today == |OnDate(ms, today)| <= |ms|
    ensures s.pending == CountIn(ms, Pending)
    ensures s.inProgress == CountStatus(ms, Pec) && s.completed == CountStatus(ms, Terminee)
  {
    Stats(|OnDate(ms, today)|, CountIn(ms, Pending), CountStatus(ms, Pec), CountStatus(ms, Terminee))
  }

  /** The three status counters never exceed the list, and a draft counts in
      none of them. */
  lemma StatusCountersBounded(ms: seq<Mission>, today: string)
    ensures var s := ComputeStats(ms, today);
      s.pending + s.inProgress + s.completed <= |ms|
      && s.pending + s.inProgress + s.completed == CountIn(ms, {Envoyee, Confirmee, Pec, Terminee})
      && s.pending + s.inProgress + s.completed + CountStatus(ms, Brouillon) <= |ms|
  {
    var pp := Pending + {Pec};
    var ppt := pp + {Terminee};
    assert ppt == {Envoyee, Confirmee, Pec, Terminee};
    CountInUnion(ms, Pending, {Pec});
    CountInUnion(ms, pp, {Terminee});
    CountInUnion(ms, ppt, {Brouillon});
    CountInMono(ms, ppt + {Brouillon}, KnownStatuses);
    CountInFull(ms, KnownStatuses);
    assert CountIn(ms, KnownStatuses) <= |ms| by {
      assert |FilterIn(ms, KnownStatuses)| <= |ms|;
    }
  }

  /** The counters a draft-only list produces are all zero but `today`. */
  lemma DraftsCountNowhere(ms: seq<Mission>, today: string)
    requires forall i :: 0 <= i < |ms| ==> ms[i].statut == Brouillon
    ensures var s := ComputeStats(ms, today); s.pending == 0 && s.inProgress == 0 && s.completed == 0
  {
    StatusCountersBounded(ms, today);
    CountInFull(ms, {Brouillon});
  }

  class DashboardView {
    var stats: Stats
    var loading: bool

    constructor ()
      ensures stats == Stats(0, 0, 0, 0) && loading
    {
      stats := Stats(0, 0, 0, 0);
      loading := true;
    }

    /** The effect plus `loadStats`: nothing happens unless the user id is
        truthy (`user?.id`: absent or 0 stops it); a failed request (`None`)
        leaves the counters and only ends loading. */
    method LoadStats(userId: Option<int>, response: Option<seq<Mission>>, today: string)
      modifies this
      ensures (userId.None? || userId.value == 0) ==> stats == old(stats) && loading == old(loading)
      ensures userId.Some? && userId.value != 0 && response.None? ==> stats == old(stats) && !loading
      ensures userId.Some? && userId.value != 0 && response.Some? ==>
                stats == ComputeStats(response.value, today) && !loading
    {
      if userId.None? || userId.value == 0 {
        return;
      }
      if response.Some? {
        stats := ComputeStats(response.value, today);
      }
      loading := false;
    }
  }
}
