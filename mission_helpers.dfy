/** The dispatcher client's mission helpers
    (frontend-secretaire/src/utils/missionHelpers.js): counts and filters by
    status, the per-status display tables, the date-and-time sort and the
    driver-name lookup. A value that is not an array is `None`. */
module MissionHelpers {
  import opened Base
  import opened MissionModel
  import StringOrder
  import Sorting

  /** The statuses counted as "en cours": sent, confirmed, picked up. */
  const EnCoursStatuses: set<Status> := {Envoyee, Confirmee, Pec}

  /** `countMissionsByStatus`. */
  function CountMissionsByStatus(missions: Option<seq<Mission>>, status: Status): (n: nat)
    ensures missions.None? ==> n == 0
    ensures missions.Some? ==> n == multiset(Statuses(missions.value))[status]
  {
    if missions.None? then 0
    else
      CountStatusOccurrences(missions.value, status);
      CountStatus(missions.value, status)
  }

  /** `filterMissionsEnCours`: the sent, confirmed and picked-up missions. */
  function FilterMissionsEnCours(missions: Option<seq<Mission>>): (r: seq<Mission>)
    ensures missions.None? ==> r == []
    ensures forall m :: m in r <==> missions.Some? && m in missions.value && m.statut in EnCoursStatuses
  {
    if missions.None? then [] else FilterIn(missions.value, EnCoursStatuses)
  }

  /** `countMissionsEnCours`: the same selection as `filterMissionsEnCours`. */
  function CountMissionsEnCours(missions: Option<seq<Mission>>): (n: nat)
    ensures n == |FilterMissionsEnCours(missions)|
  {
    if missions.None? then 0 else CountIn(missions.value, EnCoursStatuses)
  }

  /** The "en cours" count is the sum of the three status counts. */
  lemma EnCoursIsThreeCounts(ms: seq<Mission>)
    ensures CountMissionsEnCours(Some(ms))
         == CountStatus(ms, Envoyee) + CountStatus(ms, Confirmee) + CountStatus(ms, Pec)
  {
    var ec: set<Status> := {Envoyee, Confirmee};
    assert {Envoyee} + {Confirmee} == ec;
    assert ec + {Pec} == EnCoursStatuses;
    CountInUnion(ms, {Envoyee}, {Confirmee});
    CountInUnion(ms, ec, {Pec});
  }

  /** `filterMissionsEnAttente`: the draft missions. */
  function FilterMissionsEnAttente(missions: Option<seq<Mission>>): (r: seq<Mission>)
    ensures missions.None? ==> r == []
    ensures forall m :: m in r <==> missions.Some? && m in missions.value && m.statut == Brouillon
  {
    if missions.None? then [] else FilterIn(missions.value, {Brouillon})
  }

  /** The draft filter keeps the input order: on a concatenation it is the
      concatenation of the filtered parts. */
  lemma EnAttenteKeepsOrder(a: seq<Mission>, b: seq<Mission>)
    ensures FilterMissionsEnAttente(Some(a + b))
         == FilterMissionsEnAttente(Some(a)) + FilterMissionsEnAttente(Some(b))
  {
    FilterInAppend(a, b, {Brouillon});
  }

  const DefaultColor := "#000000"
  const DefaultIcon := "⚪"

  /** `getStatusColor`. */
  function StatusColor(s: Status): (c: string)
    ensures c == DefaultColor <==> !Known(s)
  {
    match s
    case Brouillon => "#FF9800"
    case Envoyee => "#2196F3"
    case Confirmee => "#FFC107"
    case Pec => "#4CAF50"
    case Terminee => "#9E9E9E"
    case Other(_) => DefaultColor
  }

  /** `getStatusLabel`: an unknown status is shown as its own text. */
  function StatusLabel(s: Status): (l: string)
    ensures !Known(s) ==> l == Text(s)
  {
    match s
    case Brouillon => "Brouillon"
    case Envoyee => "Envoyée"
    case Confirmee => "Confirmée"
    case Pec => "Prise en charge"
    case Terminee => "Terminée"
    case Other(raw) => raw
  }

  /** `getStatusIcon`. */
  function StatusIcon(s: Status): (i: string)
    ensures i == DefaultIcon <==> !Known(s)
  {
    match s
    case Brouillon => "🟠"
    case Envoyee => "🔵"
    case Confirmee => "🟡"
    case Pec => "🟢"
    case Terminee => "⚫"
    case Other(_) => DefaultIcon
  }

  /** The colour, the icon and the label each tell the five statuses apart. */
  lemma DisplayDistinguishesKnown(a: Status, b: Status)
    requires Known(a) && Known(b) && a != b
    ensures StatusColor(a) != StatusColor(b)
    ensures StatusIcon(a) != StatusIcon(b)
    ensures StatusLabel(a) != StatusLabel(b)
  {
  }

  /** The text `localeCompare` receives for a date: its `String` form. */
  function DateText(m: Mission): string
  {
    JsString(m.date_mission)
  }

  /** The comparator of `sortMissionsByDateTime` as an order: by date, then by
      time. */
  predicate ByDateTime(a: Mission, b: Mission)
  {
    StringOrder.Lt(StringOrder.Collation, DateText(a), DateText(b))
    || (DateText(a) == DateText(b) && StringOrder.Le(StringOrder.Collation, a.heure_prevue, b.heure_prevue))
  }

  lemma ByDateTimeTotal(a: Mission, b: Mission)
    ensures ByDateTime(a, b) || ByDateTime(b, a)
  {
    StringOrder.LtTrichotomy(StringOrder.Collation, DateText(a), DateText(b));
    StringOrder.LeTotal(StringOrder.Collation, a.heure_prevue, b.heure_prevue);
  }

  lemma ByDateTimeTransitive(a: Mission, b: Mission, c: Mission)
    requires ByDateTime(a, b) && ByDateTime(b, c)
    ensures ByDateTime(a, c)
  {
    StringOrder.LtIrreflexive(StringOrder.Collation, DateText(a));
    StringOrder.LtIrreflexive(StringOrder.Collation, DateText(b));
    if DateText(a) != DateText(b) && DateText(b) != DateText(c) {
      StringOrder.LtTransitive(StringOrder.Collation, DateText(a), DateText(b), DateText(c));
    } else if DateText(a) == DateText(b) && DateText(b) == DateText(c) {
      StringOrder.LeTransitive(StringOrder.Collation, a.heure_prevue, b.heure_prevue, c.heure_prevue);
    }
  }

  lemma ByDateTimePreorder()
    ensures Sorting.Total(ByDateTime) && Sorting.Transitive(ByDateTime)
  {
    forall a, b ensures ByDateTime(a, b) || ByDateTime(b, a) {
      ByDateTimeTotal(a, b);
    }
    forall a, b, c | ByDateTime(a, b) && ByDateTime(b, c) ensures ByDateTime(a, c) {
      ByDateTimeTransitive(a, b, c);
    }
  }

  /** `sortMissionsByDateTime`: a sorted permutation of a copy of the input.
      With two or more missions the comparator calls `localeCompare` on each
      date, which needs the dates to be strings. */
  function SortMissionsByDateTime(missions: Option<seq<Mission>>): (r: seq<Mission>)
    requires missions.Some? && |missions.value| >= 2 ==>
               forall m | m in missions.value :: m.date_mission.Str?
    ensures missions.None? ==> r == []
    ensures missions.Some? ==> multiset(r) == multiset(missions.value)
    ensures Sorting.SortedBy(r, ByDateTime)
  {
    if missions.None? then []
    else
      ByDateTimePreorder();
      Sorting.SortBySorted(missions.value, ByDateTime);
      Sorting.SortBy(missions.value, ByDateTime)
  }

  /** A driver as the client lists them. */
  datatype Chauffeur = Chauffeur(id: int, nom: string)

  /** `chauffeurs.find(c => c.id === id)`: the index of the first match. */
  function FindChauffeur(cs: seq<Chauffeur>, id: int): (k: Option<nat>)
    ensures k.Some? ==> k.value < |cs| && cs[k.value].id == id
                        && forall j :: 0 <= j < k.value ==> cs[j].id != id
    ensures k.None? ==> forall j :: 0 <= j < |cs| ==> cs[j].id != id
  {
    FirstWhere(cs, (c: Chauffeur) => c.id == id)
  }

  /** `isMissionAssignee`: `chauffeur_id` is neither null nor undefined. */
  predicate IsMissionAssignee(m: Mission)
  {
    m.chauffeur_id.Some?
  }

  const Unassigned := "Non assigné"
  const UnknownDriver := "Chauffeur inconnu"

  /** `getChauffeurName`. */
  function ChauffeurName(m: Mission, cs: seq<Chauffeur>): (name: string)
    ensures !IsMissionAssignee(m) ==> name == Unassigned
    ensures (IsMissionAssignee(m) && forall j :: 0 <= j < |cs| ==> cs[j].id != m.chauffeur_id.value)
            ==> name == UnknownDriver
    ensures IsMissionAssignee(m) ==>
              forall j :: 0 <= j < |cs| && cs[j].id == m.chauffeur_id.value
                          && (forall i :: 0 <= i < j ==> cs[i].id != m.chauffeur_id.value)
                          ==> name == cs[j].nom
  {
    if !IsMissionAssignee(m) then Unassigned
    else match FindChauffeur(cs, m.chauffeur_id.value)
      case None => UnknownDriver
      case Some(k) => cs[k].nom
  }
}
