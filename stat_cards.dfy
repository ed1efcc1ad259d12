/** The four statistic cards of the dispatcher dashboard
    (frontend-secretaire/src/components/dashboard/StatCards.jsx). */
module StatCards {
  import opened Base
  import opened MissionModel
  import MissionHelpers

  datatype Counts = Counts(enAttente: nat, enCours: nat, pec: nat, terminees: nat)

  /** The statuses the "en cours" card counts: sent and confirmed only. */
  const CardEnCours: set<Status> := {Envoyee, Confirmee}

  /** The four `filter(...).length` expressions. */
  function StatCounts(ms: seq<Mission>): (c: Counts)
    ensures c.enAttente == CountStatus(ms, Brouillon)
    ensures c.enCours == CountIn(ms, CardEnCours)
    ensures c.pec == CountStatus(ms, Pec)
    ensures c.terminees == CountStatus(ms, Terminee)
  {
    Counts(CountStatus(ms, Brouillon), CountIn(ms, CardEnCours), CountStatus(ms, Pec), CountStatus(ms, Terminee))
  }

  function Total(c: Counts): nat
  {
    c.enAttente + c.enCours + c.pec + c.terminees
  }

  /** The four cards together count the missions with a known status: never
      more than the list, and all of it exactly when every status is one of
      the five. */
  lemma StatCountsCover(ms: seq<Mission>)
    ensures Total(StatCounts(ms)) == CountIn(ms, KnownStatuses)
    ensures Total(StatCounts(ms)) <= |ms|
    ensures Total(StatCounts(ms)) == |ms| <==> forall i :: 0 <= i < |ms| ==> Known(ms[i].statut)
  {
    var b: set<Status> := {Brouillon};
    var bc := b + CardEnCours;
    var bcp := bc + {Pec};
    assert bcp + {Terminee} == KnownStatuses;
    CountInUnion(ms, b, CardEnCours);
    CountInUnion(ms, bc, {Pec});
    CountInUnion(ms, bcp, {Terminee});
    CountInFull(ms, KnownStatuses);
    forall i | 0 <= i < |ms| ensures ms[i].statut in KnownStatuses <==> Known(ms[i].statut) {
    }
  }

  /** The card's "en cours" leaves out picked-up missions, which the helper
      `countMissionsEnCours` counts. */
  lemma EnCoursExcludesPec(ms: seq<Mission>)
    ensures StatCounts(ms).enCours == MissionHelpers.CountMissionsEnCours(Some(ms)) - CountStatus(ms, Pec)
  {
    MissionHelpers.EnCoursIsThreeCounts(ms);
    CountInUnion(ms, {Envoyee}, {Confirmee});
    assert {Envoyee} + {Confirmee} == CardEnCours;
  }

  /** The keys the cards pass to `onStatCardClick`, left to right. */
  const CardKeys: seq<string> := ["brouillon", "en_cours", "pec", "terminee"]

  /** Three card keys are status texts; the "en cours" key is not. */
  lemma CardKeysSpec()
    ensures CardKeys[0] == Text(Brouillon) && CardKeys[2] == Text(Pec) && CardKeys[3] == Text(Terminee)
    ensures Parse(CardKeys[1]) == Other("en_cours")
  {
  }
}
