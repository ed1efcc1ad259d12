/** The dispatcher's live-map page: the online/offline statistics and the
    position filter. Times are integer milliseconds; a driver is online when
    its last position is at most five minutes old. */
module Geolocalisation {
  import opened Base

  /** An active position as the page receives it; `timestamp` is `None` when
      `new Date(p.timestamp)` is an invalid date. */
  datatype DriverPosition = DriverPosition(chauffeurId: int, timestamp: Option<int>)

  const OnlineWindowMs := 300000

  /** `age <= 300` with `age = (now - new Date(p.timestamp)) / 1000`: false
      when the date is invalid, since then the age is `NaN`. */
  predicate IsOnline(p: DriverPosition, now: int)
  {
    p.timestamp.Some? && now - p.timestamp.value <= OnlineWindowMs
  }

  /** `age > 300`, likewise false for an invalid date. */
  predicate IsOffline(p: DriverPosition, now: int)
  {
    p.timestamp.Some? && now - p.timestamp.value > OnlineWindowMs
  }

  function OnlinePositions(ps: seq<DriverPosition>, now: int): (r: seq<DriverPosition>)
    ensures |r| <= |ps|
    ensures forall p :: p in r <==> p in ps && IsOnline(p, now)
  {
    if ps == [] then []
    else if IsOnline(ps[0], now) then [ps[0]] + OnlinePositions(ps[1..], now)
    else OnlinePositions(ps[1..], now)
  }

  function OfflinePositions(ps: seq<DriverPosition>, now: int): (r: seq<DriverPosition>)
    ensures |r| <= |ps|
    ensures forall p :: p in r <==> p in ps && IsOffline(p, now)
  {
    if ps == [] then []
    else if IsOffline(ps[0], now) then [ps[0]] + OfflinePositions(ps[1..], now)
    else OfflinePositions(ps[1..], now)
  }

  /** The positions whose timestamp is not a valid date. */
  function Undated(ps: seq<DriverPosition>): (r: seq<DriverPosition>)
    ensures forall p :: p in r <==> p in ps && p.timestamp.None?
  {
    if ps == [] then []
    else if ps[0].timestamp.None? then [ps[0]] + Undated(ps[1..])
    else Undated(ps[1..])
  }

  datatype Stats = Stats(total: nat, online: nat, offline: int)

  /** `updateStats(positions)`. */
  function UpdateStats(ps: seq<DriverPosition>, now: int): (s: Stats)
    ensures s.total == |ps| && s.online + s.offline == s.total
    ensures s.online == |OnlinePositions(ps, now)|
  {
    var online := |OnlinePositions(ps, now)|;
    Stats(|ps|, online, |ps| - online)
  }

  /** `getFilteredPositions()` for the selected filter. */
  function FilteredPositions(ps: seq<DriverPosition>, filter: string, now: int): (r: seq<DriverPosition>)
    ensures filter != "online" && filter != "offline" ==> r == ps
    ensures forall p :: p in r ==> p in ps
  {
    if filter == "online" then OnlinePositions(ps, now)
    else if filter == "offline" then OfflinePositions(ps, now)
    else ps
  }

  /** Every position is online, offline, or undated, and exactly one of them:
      the three lists split the positions, and the online and offline lists
      together hold exactly the dated ones. */
  lemma {:induction false} PresencePartition(ps: seq<DriverPosition>, now: int)
    ensures multiset(OnlinePositions(ps, now)) + multiset(OfflinePositions(ps, now)) + multiset(Undated(ps)) == multiset(ps)
  {
    if ps != [] {
      var t := ps[1..];
      assert ps == [ps[0]] + t;
      PresencePartition(t, now);
      var x := multiset{ps[0]};
      if IsOnline(ps[0], now) {
        assert multiset(OnlinePositions(ps, now)) == x + multiset(OnlinePositions(t, now));
      } else if IsOffline(ps[0], now) {
        assert multiset(OfflinePositions(ps, now)) == x + multiset(OfflinePositions(t, now));
      } else {
        assert multiset(Undated(ps)) == x + multiset(Undated(t));
      }
    }
  }

  /** The statistics count every undated position as offline although the
      offline filter shows none of them: the offline figure is the length of
      the offline list exactly when every timestamp is a valid date. */
  lemma StatsOfflineCount(ps: seq<DriverPosition>, now: int)
    ensures UpdateStats(ps, now).offline == |OfflinePositions(ps, now)| + |Undated(ps)|
    ensures UpdateStats(ps, now).offline == |OfflinePositions(ps, now)|
            <==> forall i :: 0 <= i < |ps| ==> ps[i].timestamp.Some?
  {
    PresencePartition(ps, now);
    assert |OnlinePositions(ps, now)| + |OfflinePositions(ps, now)| + |Undated(ps)| == |ps| by {
      assert |multiset(ps)| == |ps|;
    }
    if exists i :: 0 <= i < |ps| && ps[i].timestamp.None? {
      var i :| 0 <= i < |ps| && ps[i].timestamp.None?;
      assert ps[i] in Undated(ps);
    } else {
      if Undated(ps) != [] {
        assert Undated(ps)[0] in ps;
      }
    }
  }

  /** Filtering keeps the relative order of the positions: each filter
      distributes over concatenation. */
  lemma {:induction false} OnlineKeepsOrder(a: seq<DriverPosition>, b: seq<DriverPosition>, now: int)
    ensures OnlinePositions(a + b, now) == OnlinePositions(a, now) + OnlinePositions(b, now)
  {
    if a == [] {
      assert a + b == b;
    } else {
      assert (a + b)[0] == a[0] && (a + b)[1..] == a[1..] + b;
      OnlineKeepsOrder(a[1..], b, now);
    }
  }

  lemma {:induction false} OfflineKeepsOrder(a: seq<DriverPosition>, b: seq<DriverPosition>, now: int)
    ensures OfflinePositions(a + b, now) == OfflinePositions(a, now) + OfflinePositions(b, now)
  {
    if a == [] {
      assert a + b == b;
    } else {
      assert (a + b)[0] == a[0] && (a + b)[1..] == a[1..] + b;
      OfflineKeepsOrder(a[1..], b, now);
    }
  }

  /** The page state `updateStats` and the position subscription write. */
  class GeolocalisationPage {
    var positions: seq<DriverPosition>
    var filter: string
    var stats: Stats
    var lastUpdate: int

    constructor ()
      ensures positions == [] && filter == "all" && stats == Stats(0, 0, 0)
    {
      positions := [];
      filter := "all";
      stats := Stats(0, 0, 0);
      lastUpdate := 0;
    }

    /** The subscription callback: new positions, their statistics at `now`,
        and the time of the update. */
    method OnPositions(newPositions: seq<DriverPosition>, now: int)
      modifies this
      ensures positions == newPositions && stats == UpdateStats(newPositions, now)
      ensures lastUpdate == now && filter == old(filter)
    {
      positions := newPositions;
      stats := UpdateStats(newPositions, now);
      lastUpdate := now;
    }

    /** The filter chips. */
    method SetFilter(f: string)
      modifies this
      ensures filter == f && positions == old(positions) && stats == old(stats) && lastUpdate == old(lastUpdate)
    {
      filter := f;
    }
  }
}
