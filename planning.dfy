/** The dispatcher's planning view (frontend-secretaire/src/components/Planning.jsx):
    status badges, the date-range buttons, the grouping of missions by date
    that skips missions without a usable date, the per-date send-all button,
    the per-mission buttons and the in-flight `sending` flags. Dates are day
    numbers; formatting them is not modelled. */
module Planning {
  import opened Base
  import opened MissionModel
  import DateGroups

  datatype StatutInfo = StatutInfo(caption: string, color: string, emoji: string, textColor: string)

  const BrouillonInfo := StatutInfo("Brouillon", "#BDBDBD", "⚪", "#424242")

  /** `getStatutInfo`: an unknown status gets the draft entry. */
  function GetStatutInfo(s: Status): (info: StatutInfo)
    ensures !Known(s) ==> info == BrouillonInfo
    ensures info == BrouillonInfo <==> s == Brouillon || !Known(s)
  {
    match s
    case Brouillon => BrouillonInfo
    case Envoyee => StatutInfo("Envoyée", "#2196F3", "🔵", "#fff")
    case Confirmee => StatutInfo("Confirmée", "#FFC107", "🟡", "#424242")
    case Pec => StatutInfo("En cours", "#F44336", "🔴", "#fff")
    case Terminee => StatutInfo("Terminée", "#4CAF50", "🟢", "#fff")
    case Other(_) => BrouillonInfo
  }

  /** The five known statuses get five different labels. */
  lemma StatutLabelsDistinct(a: Status, b: Status)
    requires Known(a) && Known(b) && a != b
    ensures GetStatutInfo(a).caption != GetStatutInfo(b).caption
  {
  }

  /** `{ date_debut, date_fin }` as day numbers. */
  datatype DateRange = DateRange(debut: int, fin: int)

  /** `handleFilterChange(type)` with today's day number as a parameter. */
  function FilterRange(kind: string, today: int): (r: DateRange)
    ensures kind == "today" ==> r == DateRange(today, today)
    ensures kind == "tomorrow" ==> r == DateRange(today + 1, today + 1)
    ensures kind != "today" && kind != "tomorrow" ==> r == DateRange(today, today + 7)
  {
    if kind == "today" then DateRange(today, today)
    else if kind == "tomorrow" then DateRange(today + 1, today + 1)
    else DateRange(today, today + 7)
  }

  /** Every range is well ordered, starts today or tomorrow and spans at most
      a week. */
  lemma FilterRangeBounds(kind: string, today: int)
    ensures var r := FilterRange(kind, today);
      r.debut <= r.fin && today <= r.debut <= today + 1 && r.fin - r.debut <= 7
  {
  }

  /** The date check before grouping: a missing, non-string, `'null'`,
      `'undefined'` or blank date is skipped. */
  predicate ValidDate(m: Mission)
  {
    m.date_mission.Str? && m.date_mission.s != "" && m.date_mission.s != "null"
    && m.date_mission.s != "undefined" && !Blank(m.date_mission.s)
  }

  /** The key `acc[date]` uses. */
  function DateKey(m: Mission): string
  {
    JsString(m.date_mission)
  }

  /** `missionsByDate`. */
  function MissionsByDate(ms: seq<Mission>): DateGroups.Grouping
  {
    DateGroups.Grouped(ms, ValidDate, DateKey)
  }

  /** Every mission with a usable date is in the group of exactly its date,
      in input order; no other mission is in any group; the skipped missions
      and the group sizes add up to the list length; `sortedDates` lists each
      group key once, in ascending order. */
  lemma MissionsByDateSpec(ms: seq<Mission>)
    ensures var g := MissionsByDate(ms);
      (forall m, k :: m in DateGroups.GroupOf(g, k) <==> m in ms && ValidDate(m) && m.date_mission.s == k)
      && DateGroups.Dropped(ms, ValidDate) + DateGroups.SumSizes(g.keys, g.groups) == |ms|
      && (forall k :: k in DateGroups.SortedKeys(g) <==> k in g.groups)
  {
    DateGroups.GroupedSpec(ms, ValidDate, DateKey);
    DateGroups.GroupedSizes(ms, ValidDate, DateKey);
    DateGroups.SortedKeysAreGroupKeys(ms, ValidDate, DateKey);
  }

  /** `brouillonCount`. */
  function BrouillonCount(ms: seq<Mission>): (n: nat)
    ensures n <= |ms|
    ensures n == 0 <==> forall m :: m in ms ==> m.statut != Brouillon
  {
    var drafts := FilterIn(ms, {Brouillon});
    assert drafts != [] ==> drafts[0] in drafts;
    CountStatus(ms, Brouillon)
  }

  /** The send-all button of a date: shown with the number of drafts that
      date holds, hidden when it holds none. */
  function SendAllButton(g: DateGroups.Grouping, date: string): (b: Option<nat>)
    ensures b.Some? <==> exists m :: m in DateGroups.GroupOf(g, date) && m.statut == Brouillon
    ensures b.Some? ==> b.value == BrouillonCount(DateGroups.GroupOf(g, date))
  {
    var n := BrouillonCount(DateGroups.GroupOf(g, date));
    if n > 0 then Some(n) else None
  }

  /** The button of a date counts exactly the drafts of the list with that
      date. */
  lemma SendAllButtonCountsDrafts(ms: seq<Mission>, date: string)
    ensures var b := SendAllButton(MissionsByDate(ms), date);
      (b.Some? <==> exists m :: m in ms && ValidDate(m) && m.date_mission.s == date && m.statut == Brouillon)
      && (b.Some? ==> b.value == BrouillonCount(DateGroups.Select(ms, ValidDate, DateKey, date)))
  {
    DateGroups.GroupedSpec(ms, ValidDate, DateKey);
  }

  datatype Buttons = Buttons(send: bool, edit: bool, delete: bool)

  /** The buttons of a mission card. */
  function CardButtons(m: Mission): (b: Buttons)
    ensures b.delete
    ensures b.send <==> m.statut == Brouillon
    ensures b.edit <==> m.statut != Pec && m.statut != Terminee
  {
    Buttons(m.statut == Brouillon, m.statut != Pec && m.statut != Terminee, true)
  }

  /** A mission that can be sent can also be edited; once picked up or done
      it can only be deleted. */
  lemma CardButtonsOrder(m: Mission)
    ensures CardButtons(m).send ==> CardButtons(m).edit
    ensures m.statut in {Pec, Terminee} ==> CardButtons(m) == Buttons(false, false, true)
  {
  }

  /** The `sending` flags of the planning view. */
  class SendingFlags {
    var sending: map<int, bool>

    constructor ()
      ensures sending == map[]
    {
      sending := map[];
    }

    /** `disabled={sending[mission.id]}`. */
    predicate Disabled(id: int)
      reads this
    {
      id in sending && sending[id]
    }

    /** `handleEnvoyerMission`, first half: the flag is raised before the
        call. */
    method StartSending(id: int)
      modifies this
      ensures sending == old(sending)[id := true]
      ensures Disabled(id)
    {
      sending := sending[id := true];
    }

    /** `handleEnvoyerMission`, second half: whether the call succeeded
        (`sent`) or failed, the flag is lowered; only success refreshes. */
    method FinishSending(id: int, sent: bool) returns (refresh: bool)
      modifies this
      ensures sending == old(sending)[id := false]
      ensures !Disabled(id)
      ensures refresh == sent
    {
      sending := sending[id := false];
      refresh := sent;
    }
  }
}
