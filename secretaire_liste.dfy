/** The mission table of the web client's dispatcher screens
    (frontend/src/components/Secretaire/ListeMissions.jsx): status badges,
    the driver-name column, deletion and the filter controls. */
module SecretaireListe {
  import opened Base
  import opened MissionModel
  import opened MissionLists
  import MissionHelpers

  datatype Badge = Badge(caption: string, color: string)

  const BrouillonBadge := Badge("Brouillon", "bg-gray-200 text-gray-800")

  /** `getStatutBadge`: an unknown status gets the draft badge. */
  function StatutBadge(s: Status): (b: Badge)
    ensures b == BrouillonBadge <==> s == Brouillon || !Known(s)
  {
    match s
    case Brouillon => BrouillonBadge
    case Envoyee => Badge("Envoyée", "bg-blue-500 text-white")
    case Confirmee => Badge("Confirmée", "bg-yellow-500 text-white")
    case Pec => Badge("En cours", "bg-red-500 text-white")
    case Terminee => Badge("Terminée", "bg-green-500 text-white")
    case Other(_) => BrouillonBadge
  }

  /** The five statuses get five different badges. */
  lemma BadgesDistinct(a: Status, b: Status)
    requires Known(a) && Known(b) && a != b
    ensures StatutBadge(a) != StatutBadge(b)
  {
  }

  const Unassigned := "Non assigné"

  /** `getChauffeurName(chauffeurId)`: the first driver with that id, and
      "Non assigné" when there is none, including when the mission has no
      driver (`null` matches no id). */
  function ChauffeurName(cs: seq<MissionHelpers.Chauffeur>, chauffeurId: Option<int>): (name: string)
    ensures chauffeurId.None? ==> name == Unassigned
    ensures chauffeurId.Some? && (forall j :: 0 <= j < |cs| ==> cs[j].id != chauffeurId.value) ==> name == Unassigned
    ensures chauffeurId.Some? ==>
              forall j :: 0 <= j < |cs| && cs[j].id == chauffeurId.value
                          && (forall i :: 0 <= i < j ==> cs[i].id != chauffeurId.value)
                          ==> name == cs[j].nom
  {
    if chauffeurId.None? then Unassigned
    else match MissionHelpers.FindChauffeur(cs, chauffeurId.value)
      case None => Unassigned
      case Some(k) => cs[k].nom
  }

  /** The two driver-name helpers agree on listed drivers and on unassigned
      missions, and disagree on an assigned mission whose driver is not in
      the list: "Chauffeur inconnu" there, "Non assigné" here. */
  lemma ChauffeurNamesDisagree(m: Mission, cs: seq<MissionHelpers.Chauffeur>)
    ensures m.chauffeur_id.Some? && MissionHelpers.FindChauffeur(cs, m.chauffeur_id.value).Some? ==>
              ChauffeurName(cs, m.chauffeur_id) == MissionHelpers.ChauffeurName(m, cs)
    ensures m.chauffeur_id.None? ==> ChauffeurName(cs, m.chauffeur_id) == MissionHelpers.ChauffeurName(m, cs)
    ensures m.chauffeur_id.Some? && MissionHelpers.FindChauffeur(cs, m.chauffeur_id.value).None? ==>
              ChauffeurName(cs, m.chauffeur_id) == Unassigned
              && MissionHelpers.ChauffeurName(m, cs) == MissionHelpers.UnknownDriver
  {
  }

  /** The status filter's options: "all" and the five statuses. */
  const StatusOptions: seq<string> := ["", "brouillon", "envoyee", "confirmee", "pec", "terminee"]

  lemma StatusOptionsSpec()
    ensures StatusOptions[0] == ""
    ensures forall i :: 1 <= i < |StatusOptions| ==> Known(Parse(StatusOptions[i]))
    ensures forall s :: Known(s) ==> Text(s) in StatusOptions
  {
  }

  datatype Filters = Filters(statut: string, date_debut: string, date_fin: string)

  datatype Toast = Success(text: string) | Failure(text: string)

  const DeletedMsg := "Mission supprimée avec succès"
  const DeleteFailedMsg := "Erreur lors de la suppression de la mission"

  class MissionTable {
    var missions: seq<Mission>
    var filters: Filters
    var toast: Option<Toast>

    constructor (initial: Filters)
      ensures missions == [] && filters == initial && toast == None
    {
      missions := [];
      filters := initial;
      toast := None;
    }

    /** `handleDelete`: a declined confirmation changes nothing; a successful
        call removes every mission with the id; a failed one only reports. */
    method Delete(id: int, confirmed: bool, deleted: bool)
      modifies this
      ensures !confirmed ==> missions == old(missions) && toast == old(toast)
      ensures confirmed && deleted ==> missions == RemoveId(old(missions), id) && toast == Some(Success(DeletedMsg))
      ensures confirmed && !deleted ==> missions == old(missions) && toast == Some(Failure(DeleteFailedMsg))
      ensures filters == old(filters)
    {
      if !confirmed {
        return;
      }
      if deleted {
        missions := RemoveId(missions, id);
        toast := Some(Success(DeletedMsg));
      } else {
        toast := Some(Failure(DeleteFailedMsg));
      }
    }

    /** The status select: only `statut` changes. */
    method SetStatut(v: string)
      modifies this
      ensures filters == old(filters).(statut := v)
      ensures missions == old(missions) && toast == old(toast)
    {
      filters := filters.(statut := v);
    }

    /** The start-date input: only `date_debut` changes. */
    method SetDateDebut(v: string)
      modifies this
      ensures filters == old(filters).(date_debut := v)
      ensures missions == old(missions) && toast == old(toast)
    {
      filters := filters.(date_debut := v);
    }

    /** The end-date input: only `date_fin` changes. */
    method SetDateFin(v: string)
      modifies this
      ensures filters == old(filters).(date_fin := v)
      ensures missions == old(missions) && toast == old(toast)
    {
      filters := filters.(date_fin := v);
    }
  }
}
