/** The list transforms both clients apply to their mission list when a
    server event arrives: the copy-then-assign upsert and the delete by id. */
module MissionLists {
  import opened Base
  import opened MissionModel

  /** `prev.findIndex(m => m.id === id)`, `None` for -1. */
  function FindIndex(ms: seq<Mission>, id: int): (k: Option<nat>)
    ensures k.Some? ==> k.value < |ms| && ms[k.value].id == id
                        && forall j :: 0 <= j < k.value ==> ms[j].id != id
    ensures k.None? ==> forall j :: 0 <= j < |ms| ==> ms[j].id != id
  {
    FirstWhere(ms, (m: Mission) => m.id == id)
  }

  predicate HasId(ms: seq<Mission>, id: int)
  {
    exists j :: 0 <= j < |ms| && ms[j].id == id
  }

  /** The dispatcher's `handleMissionUpdate` list transform: the first entry
      with the same id is replaced in place; an unseen mission goes first. */
  function Upsert(prev: seq<Mission>, m: Mission): (r: seq<Mission>)
    ensures HasId(prev, m.id) ==> |r| == |prev|
    ensures !HasId(prev, m.id) ==> r == [m] + prev
  {
    match FindIndex(prev, m.id)
    case Some(i) => prev[i := m]
    case None => [m] + prev
  }

  /** An update of a known id replaces exactly the first entry with that id
      and leaves every other entry where it was. */
  lemma UpsertReplacesFirst(prev: seq<Mission>, m: Mission, i: nat)
    requires i < |prev| && prev[i].id == m.id
    requires forall j :: 0 <= j < i ==> prev[j].id != m.id
    ensures |Upsert(prev, m)| == |prev|
    ensures Upsert(prev, m)[i] == m
    ensures forall j :: 0 <= j < |prev| && j != i ==> Upsert(prev, m)[j] == prev[j]
  {
    assert FindIndex(prev, m.id) == Some(i);
  }

  /** Applying the same update twice is applying it once. */
  lemma UpsertIdempotent(prev: seq<Mission>, m: Mission)
    ensures Upsert(Upsert(prev, m), m) == Upsert(prev, m)
  {
    var r := Upsert(prev, m);
    match FindIndex(prev, m.id)
    case Some(i) =>
      UpsertReplacesFirst(prev, m, i);
      UpsertReplacesFirst(r, m, i);
      assert Upsert(r, m) == r;
    case None =>
      UpsertReplacesFirst(r, m, 0);
      assert Upsert(r, m) == r;
  }

  /** `prev.filter(m => m.id !== id)`. */
  function RemoveId(prev: seq<Mission>, id: int): (r: seq<Mission>)
    ensures |r| <= |prev|
    ensures forall x :: x in r <==> x in prev && x.id != id
  {
    if prev == [] then []
    else if prev[0].id == id then RemoveId(prev[1..], id)
    else [prev[0]] + RemoveId(prev[1..], id)
  }

  /** Deleting keeps the relative order of the remaining missions. */
  lemma {:induction false} RemoveIdAppend(a: seq<Mission>, b: seq<Mission>, id: int)
    ensures RemoveId(a + b, id) == RemoveId(a, id) + RemoveId(b, id)
  {
    if a == [] {
      assert a + b == b;
    } else {
      assert (a + b)[0] == a[0] && (a + b)[1..] == a[1..] + b;
      RemoveIdAppend(a[1..], b, id);
    }
  }

  /** A delete keeps exactly the missions with another id: a list with no such
      id is left as it is. */
  lemma {:induction false} RemoveIdAbsent(prev: seq<Mission>, id: int)
    requires !HasId(prev, id)
    ensures RemoveId(prev, id) == prev
  {
    if prev != [] {
      assert prev[0].id != id;
      assert !HasId(prev[1..], id) by {
        forall j | 0 <= j < |prev[1..]| ensures prev[1..][j].id != id {
          assert prev[1..][j] == prev[j + 1];
        }
      }
      RemoveIdAbsent(prev[1..], id);
    }
  }

  /** Replacing an entry by one with the same id does not change what a delete
      of that id leaves. */
  lemma {:induction false} RemoveIdReplaced(prev: seq<Mission>, i: nat, x: Mission)
    requires i < |prev| && prev[i].id == x.id
    ensures RemoveId(prev[i := x], x.id) == RemoveId(prev, x.id)
  {
    if i > 0 {
      assert prev[i := x][1..] == prev[1..][i - 1 := x];
      RemoveIdReplaced(prev[1..], i - 1, x);
    } else {
      assert prev[i := x][1..] == prev[1..];
    }
  }

  /** Deleting a mission after it was updated leaves the same list as deleting
      it straight away. */
  lemma DeleteAfterUpsert(prev: seq<Mission>, m: Mission)
    ensures RemoveId(Upsert(prev, m), m.id) == RemoveId(prev, m.id)
  {
    match FindIndex(prev, m.id)
    case Some(i) => RemoveIdReplaced(prev, i, m);
    case None =>
  }

  /** The driver's `handleMissionUpdate` list transform: another driver's
      mission is ignored; a known id is replaced whatever its status; an
      unseen mission is added first unless it is still a draft. */
  function UpsertForDriver(prev: seq<Mission>, m: Mission, driverId: int): (r: seq<Mission>)
    ensures m.chauffeur_id != Some(driverId) ==> r == prev
    ensures m.chauffeur_id == Some(driverId) && HasId(prev, m.id) ==> r == Upsert(prev, m)
    ensures m.chauffeur_id == Some(driverId) && !HasId(prev, m.id) ==>
              r == (if m.statut != Brouillon then [m] + prev else prev)
  {
    if m.chauffeur_id != Some(driverId) then prev
    else match FindIndex(prev, m.id)
      case Some(i) => prev[i := m]
      case None => if m.statut != Brouillon then [m] + prev else prev
  }

  /** The driver's list only ever gains missions assigned to that driver that
      are not drafts. */
  lemma DriverListGainsOnlyOwnSent(prev: seq<Mission>, m: Mission, driverId: int)
    ensures |UpsertForDriver(prev, m, driverId)| > |prev| ==>
              m.chauffeur_id == Some(driverId) && m.statut != Brouillon
  {
  }
}

/** The names of the mission events the server broadcasts over the socket. */
module MissionEvents {
  const Nouvelle := "mission:nouvelle"
  const EnvoyeeEvent := "mission:envoyee"
  const EnvoyeesEvent := "missions:envoyees"
  const Modifiee := "mission:modifiee"
  const Supprimee := "mission:supprimee"
  const ConfirmeeEvent := "mission:confirmee"
  const PecEvent := "mission:pec"
  const TermineeEvent := "mission:terminee"
  const CommentaireEvent := "mission:commentaire"
}
