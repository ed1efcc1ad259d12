/** The driver's missions page (frontend-chauffeur/src/pages/Missions.jsx):
    the events it subscribes to and what each handler does to the page state.
    The logged-in driver's id is a field of the page. */
module ChauffeurMissions {
  import opened Base
  import opened MissionModel
  import opened MissionLists
  import opened MissionEvents

  datatype Handler = HandleMissionUpdate | HandleMissionsUpdate | HandleMissionDelete

  /** `setupSocketListeners`, in registration order. */
  const Setup: seq<(string, Handler)> := [
    (Nouvelle, HandleMissionUpdate), (EnvoyeeEvent, HandleMissionUpdate),
    (EnvoyeesEvent, HandleMissionsUpdate), (Modifiee, HandleMissionUpdate),
    (Supprimee, HandleMissionDelete)]

  /** `removeSocketListeners`, in call order. */
  const Teardown: seq<(string, Handler)> := [
    (Nouvelle, HandleMissionUpdate), (EnvoyeeEvent, HandleMissionUpdate),
    (EnvoyeesEvent, HandleMissionsUpdate), (Modifiee, HandleMissionUpdate),
    (Supprimee, HandleMissionDelete)]

  const UpsertEvents := {Nouvelle, EnvoyeeEvent, Modifiee}

  /** The handler an event reaches, if the page subscribed to it. */
  function Route(event: string): (h: Option<Handler>)
    ensures h.Some? ==> (event, h.value) in Setup
    ensures h == Some(HandleMissionDelete) <==> event == Supprimee
    ensures h == Some(HandleMissionsUpdate) <==> event == EnvoyeesEvent
    ensures h == Some(HandleMissionUpdate) <==> event in UpsertEvents
  {
    if event == Supprimee then Some(HandleMissionDelete)
    else if event == EnvoyeesEvent then Some(HandleMissionsUpdate)
    else if event in UpsertEvents then Some(HandleMissionUpdate)
    else None
  }

  /** Confirmation, pick-up, completion and comment events never reach the
      driver's page; teardown mirrors setup. */
  lemma UnhandledEvents()
    ensures Route(ConfirmeeEvent).None? && Route(PecEvent).None?
    ensures Route(TermineeEvent).None? && Route(CommentaireEvent).None?
    ensures Teardown == Setup
  {
  }

  const UpdatedMsg := "Mission mise à jour"
  const ReceivedMsg := "Nouvelles missions reçues"
  const DeletedMsg := "Mission supprimée"

  class MissionsPage {
    const driverId: int
    var missions: seq<Mission>
    var reloads: nat
    var snackbar: Option<string>

    constructor (id: int)
      ensures driverId == id && missions == [] && reloads == 0 && snackbar == None
    {
      driverId := id;
      missions := [];
      reloads := 0;
      snackbar := None;
    }

    /** `handleMissionUpdate`: another driver's mission changes nothing, not
        even the snackbar; the driver's own gets the driver-side upsert. */
    method OnMissionUpdate(m: Mission)
      modifies this
      ensures m.chauffeur_id != Some(driverId) ==>
                missions == old(missions) && snackbar == old(snackbar)
      ensures m.chauffeur_id == Some(driverId) ==>
                missions == UpsertForDriver(old(missions), m, driverId) && snackbar == Some(UpdatedMsg)
      ensures reloads == old(reloads)
    {
      if m.chauffeur_id != Some(driverId) {
        return;
      }
      missions := UpsertForDriver(missions, m, driverId);
      snackbar := Some(UpdatedMsg);
    }

    /** `handleMissionsUpdate`: a full reload, not a per-mission patch. */
    method OnMissionsUpdate()
      modifies this
      ensures reloads == old(reloads) + 1 && missions == old(missions)
      ensures snackbar == Some(ReceivedMsg)
    {
      reloads := reloads + 1;
      snackbar := Some(ReceivedMsg);
    }

    /** `handleMissionDelete`: every mission with the id leaves the list,
        whichever driver it belongs to. */
    method OnMissionDelete(id: int)
      modifies this
      ensures missions == RemoveId(old(missions), id)
      ensures snackbar == Some(DeletedMsg) && reloads == old(reloads)
    {
      missions := RemoveId(missions, id);
      snackbar := Some(DeletedMsg);
    }
  }
}
