/** The dispatcher dashboard page (frontend-secretaire/src/pages/Dashboard.jsx):
    which socket event runs which handler, and what each handler does to the
    page state (the mission list, the selected mission, the details popup,
    the reload requests and the snackbar). */
module SecretaireDashboard {
  import opened Base
  import opened MissionModel
  import opened MissionLists
  import opened MissionEvents

  /** The three handlers the page registers. */
  datatype Handler = HandleMissionUpdate | HandleMissionsUpdate | HandleMissionDelete

  /** `setupSocketListeners`, in registration order. */
  const Setup: seq<(string, Handler)> := [
    (Nouvelle, HandleMissionUpdate), (EnvoyeeEvent, HandleMissionUpdate),
    (EnvoyeesEvent, HandleMissionsUpdate), (Modifiee, HandleMissionUpdate),
    (Supprimee, HandleMissionDelete), (ConfirmeeEvent, HandleMissionUpdate),
    (PecEvent, HandleMissionUpdate), (TermineeEvent, HandleMissionUpdate),
    (CommentaireEvent, HandleMissionUpdate)]

  /** `removeSocketListeners`, in call order. */
  const Teardown: seq<(string, Handler)> := [
    (Nouvelle, HandleMissionUpdate), (EnvoyeeEvent, HandleMissionUpdate),
    (EnvoyeesEvent, HandleMissionsUpdate), (Modifiee, HandleMissionUpdate),
    (Supprimee, HandleMissionDelete), (ConfirmeeEvent, HandleMissionUpdate),
    (PecEvent, HandleMissionUpdate), (TermineeEvent, HandleMissionUpdate),
    (CommentaireEvent, HandleMissionUpdate)]

  /** The seven events that carry one updated mission. */
  const UpsertEvents := {Nouvelle, EnvoyeeEvent, Modifiee, ConfirmeeEvent, PecEvent, TermineeEvent, CommentaireEvent}

  /** The handler an event reaches, if the page subscribed to it: deletion
      events delete, the bulk-send event reloads, the seven other mission
      events upsert. */
  function Route(event: string): (h: Option<Handler>)
    ensures h.Some? ==> (event, h.value) in Setup
    ensures h == Some(HandleMissionDelete) <==> event == Supprimee
    ensures h == Some(HandleMissionsUpdate) <==> event == EnvoyeesEvent
    ensures h == Some(HandleMissionUpdate) <==> event in UpsertEvents
  {
    if event == Supprimee then Some(HandleMissionDelete)
    else if event == EnvoyeesEvent then Some(HandleMissionsUpdate)
    else if event in UpsertEvents then Some(HandleMissionUpdate)
    else None
  }

  /** Every registration of the setup is what `Route` delivers. */
  lemma SetupRouted(i: nat)
    requires i < |Setup|
    ensures Route(Setup[i].0) == Some(Setup[i].1)
  {
    if i == 0 {
    } else if i == 1 {
    } else if i == 2 {
    } else if i == 3 {
    } else if i == 4 {
    } else if i == 5 {
    } else if i == 6 {
    } else if i == 7 {
    } else {
    }
  }

  /** Teardown unregisters exactly the pairs setup registered. */
  lemma TeardownMirrorsSetup()
    ensures Teardown == Setup
  {
  }

  const SentSuffix := " mission(s) envoyée(s)"

  /** `${n} mission(s) envoyée(s)`: the count in decimal, which reads back as
      `n`, then the fixed suffix. */
  function SentMessage(n: nat): (msg: string)
    ensures |msg| > |SentSuffix| && msg[|msg| - |SentSuffix|..] == SentSuffix
    ensures AllDigits(msg[..|msg| - |SentSuffix|]) && DigitsValue(msg[..|msg| - |SentSuffix|]) == n
  {
    var digits := NatToString(n);
    NatToStringRoundTrip(n);
    assert (digits + SentSuffix)[..|digits|] == digits;
    digits + SentSuffix
  }

  class DashboardPage {
    var missions: seq<Mission>
    var selected: Option<Mission>
    var openDetails: bool
    var reloads: nat
    var snackbar: Option<string>

    constructor ()
      ensures missions == [] && selected == None && !openDetails && reloads == 0 && snackbar == None
    {
      missions := [];
      selected := None;
      openDetails := false;
      reloads := 0;
      snackbar := None;
    }

    /** `handleMissionUpdate`: the list gets the upsert; a selected mission
        with the same id is replaced by the new record. */
    method OnMissionUpdate(m: Mission)
      modifies this
      ensures missions == Upsert(old(missions), m)
      ensures selected == (if old(selected).Some? && old(selected).value.id == m.id then Some(m) else old(selected))
      ensures openDetails == old(openDetails) && reloads == old(reloads) && snackbar == old(snackbar)
    {
      missions := Upsert(missions, m);
      if selected.Some? && selected.value.id == m.id {
        selected := Some(m);
      }
    }

    /** `handleMissionsUpdate`: a full reload is requested and the count of
        sent missions is announced; the list itself is not patched. */
    method OnMissionsUpdate(updated: seq<Mission>)
      modifies this
      ensures reloads == old(reloads) + 1
      ensures snackbar == Some(SentMessage(|updated|))
      ensures missions == old(missions) && selected == old(selected) && openDetails == old(openDetails)
    {
      reloads := reloads + 1;
      snackbar := Some(SentMessage(|updated|));
    }

    /** `handleMissionDelete`: every mission with the id leaves the list; if
        it was the selected one, the details close and the selection is
        cleared. */
    method OnMissionDelete(id: int)
      modifies this
      ensures missions == RemoveId(old(missions), id)
      ensures old(selected).Some? && old(selected).value.id == id ==> selected == None && !openDetails
      ensures !(old(selected).Some? && old(selected).value.id == id) ==>
                selected == old(selected) && openDetails == old(openDetails)
      ensures reloads == old(reloads) && snackbar == old(snackbar)
    {
      missions := RemoveId(missions, id);
      if selected.Some? && selected.value.id == id {
        openDetails := false;
        selected := None;
      }
    }
  }
}
