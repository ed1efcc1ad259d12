/** The mission creation form of the web client
    (frontend/src/components/Secretaire/CreerMission.jsx): field edits, the
    form check, and the request body built from a valid form. */
module CreerMission {
  import opened Base
  import opened JsNumbers
  import Validation

  /** The form state. Inputs deliver strings, so `nombrePassagers` is the
      number 1 until the field is edited and a string afterwards. */
  datatype Form = Form(
    clientNom: string,
    clientTelephone: string,
    adresseDepart: string,
    adresseArrivee: string,
    dateHeure: string,
    nombrePassagers: Value,
    prixEstime: string,
    typeVehicule: string,
    notes: string,
    chauffeurId: string)

  /** The form as first shown, with the current date and time as text. */
  function InitialForm(now: string): Form
  {
    Form("", "", "", "", now, Num(1), "", "Berline", "", "")
  }

  /** The vehicle types the form offers. */
  const VehicleTypes: set<string> := {"Berline", "Break", "Monospace", "Van"}

  /** `handleChange`, form half: `{ ...formData, [name]: value }` on the
      fields the form has; another name adds a property the form never
      reads. */
  function SetField(f: Form, name: string, value: string): Form
  {
    if name == "clientNom" then f.(clientNom := value)
    else if name == "clientTelephone" then f.(clientTelephone := value)
    else if name == "adresseDepart" then f.(adresseDepart := value)
    else if name == "adresseArrivee" then f.(adresseArrivee := value)
    else if name == "dateHeure" then f.(dateHeure := value)
    else if name == "nombrePassagers" then f.(nombrePassagers := Str(value))
    else if name == "prixEstime" then f.(prixEstime := value)
    else if name == "typeVehicule" then f.(typeVehicule := value)
    else if name == "notes" then f.(notes := value)
    else if name == "chauffeurId" then f.(chauffeurId := value)
    else f
  }

  /** `handleChange`, error half: a truthy error of that field is cleared. */
  function ClearError(errors: map<string, string>, name: string): (r: map<string, string>)
    ensures r.Keys == errors.Keys
    ensures forall k :: k in r && k != name ==> r[k] == errors[k]
    ensures name in r ==> r[name] == ""
  {
    if name in errors && errors[name] != "" then errors[name := ""] else errors
  }

  /** An edit of the client name touches that field only. */
  lemma SetFieldOnlyThatField(f: Form, value: string)
    ensures SetField(f, "clientNom", value) == f.(clientNom := value)
    ensures SetField(f, "nombrePassagers", value) == f.(nombrePassagers := Str(value))
    ensures SetField(f, "submit", value) == f
  {
  }

  /** `formData.nombrePassagers < 1`: a string is converted to a number first,
      and `NaN` compares false. */
  predicate TooFewPassengers(v: Value)
  {
    match v
    case Num(n) => n < 1
    case Str(s) => ToNumber(s).Int? && ToNumber(s).i < 1
    case Null => true
    case Undefined => false
  }

  const NomKey := "clientNom"
  const TelephoneKey := "clientTelephone"
  const DepartKey := "adresseDepart"
  const ArriveeKey := "adresseArrivee"
  const DateHeureKey := "dateHeure"
  const PassagersKey := "nombrePassagers"
  const NomMsg := "Le nom du client est requis"
  const TelephoneMsg := "Le téléphone du client est requis"
  const DepartMsg := "L'adresse de départ est requise"
  const ArriveeMsg := "L'adresse d'arrivée est requise"
  const DateHeureMsg := "La date et l'heure sont requises"
  const PassagersMsg := "Le nombre de passagers doit être au moins 1"

  /** `if (failed) newErrors[key] = msg`. */
  function AddError(errors: map<string, string>, failed: bool, key: string, msg: string): (r: map<string, string>)
    ensures r.Keys == if failed then errors.Keys + {key} else errors.Keys
  {
    if failed then errors[key := msg] else errors
  }

  /** `validateForm`: the errors, one per failed check. */
  function FormErrors(f: Form): (errors: map<string, string>)
    ensures NomKey in errors <==> Blank(f.clientNom)
    ensures TelephoneKey in errors <==> Blank(f.clientTelephone)
    ensures DepartKey in errors <==> Blank(f.adresseDepart)
    ensures ArriveeKey in errors <==> Blank(f.adresseArrivee)
    ensures DateHeureKey in errors <==> f.dateHeure == ""
    ensures PassagersKey in errors <==> TooFewPassengers(f.nombrePassagers)
    ensures errors.Keys <= {NomKey, TelephoneKey, DepartKey, ArriveeKey, DateHeureKey, PassagersKey}
  {
    var e1 := AddError(map[], Blank(f.clientNom), NomKey, NomMsg);
    var e2 := AddError(e1, Blank(f.clientTelephone), TelephoneKey, TelephoneMsg);
    var e3 := AddError(e2, Blank(f.adresseDepart), DepartKey, DepartMsg);
    var e4 := AddError(e3, Blank(f.adresseArrivee), ArriveeKey, ArriveeMsg);
    var e5 := AddError(e4, f.dateHeure == "", DateHeureKey, DateHeureMsg);
    AddError(e5, TooFewPassengers(f.nombrePassagers), PassagersKey, PassagersMsg)
  }

  /** `validateForm()`'s result. */
  predicate ValidForm(f: Form)
  {
    FormErrors(f) == map[]
  }

  /** The form is valid exactly when the four text fields are non-blank, the
      date is filled in and the passenger count is not below 1. */
  lemma ValidFormIff(f: Form)
    ensures ValidForm(f) <==>
      !AllSpace(f.clientNom) && !AllSpace(f.clientTelephone) && !AllSpace(f.adresseDepart)
      && !AllSpace(f.adresseArrivee) && f.dateHeure != "" && !TooFewPassengers(f.nombrePassagers)
  {
    BlankIff(f.clientNom);
    BlankIff(f.clientTelephone);
    BlankIff(f.adresseDepart);
    BlankIff(f.adresseArrivee);
    var e := FormErrors(f);
    if e != map[] {
      var k :| k in e;
    }
  }

  /** The passenger count text `"0"` fails, and so does the emptied field,
      which converts to 0; a text that is not a number passes. */
  lemma PassengerCountExamples()
    ensures TooFewPassengers(Str("0")) && TooFewPassengers(Str(""))
    ensures !TooFewPassengers(Str("abc")) && !TooFewPassengers(Num(1))
  {
    assert Trim("0") == "0";
    assert Trim("abc") == "abc";
  }

  /** `s.split('T')[0]`: the text before the first `T`. */
  function BeforeT(s: string): (r: string)
    ensures |r| <= |s| && r == s[..|r|]
    ensures 'T' !in r
    ensures |r| < |s| ==> s[|r|] == 'T'
  {
    if s == [] || s[0] == 'T' then [] else [s[0]] + BeforeT(s[1..])
  }

  /** `s.split('T')[1]`: the text between the first and the second `T`, and
      `undefined` when there is no `T`. */
  function AfterT(s: string): (v: Value)
    ensures v.Undefined? <==> 'T' !in s
  {
    var d := BeforeT(s);
    if |d| == |s| then
      assert s == d;
      Undefined
    else
      assert s[|d|] in s;
      Str(BeforeT(s[|d| + 1..]))
  }

  /** On `date + 'T' + time` with no other `T`, the split gives back the date
      and the time. */
  lemma {:induction false} SplitDateHeure(date: string, time: string)
    requires 'T' !in date && 'T' !in time
    ensures BeforeT(date + "T" + time) == date
    ensures AfterT(date + "T" + time) == Str(time)
  {
    var s := date + "T" + time;
    assert s == date + ("T" + time);
    BeforeTOfPrefix(date, "T" + time);
    assert s[|date| + 1..] == time;
    BeforeTOfPrefix(time, "");
    assert time + "" == time;
  }

  lemma {:induction false} BeforeTOfPrefix(a: string, rest: string)
    requires 'T' !in a && (rest == [] || rest[0] == 'T')
    ensures BeforeT(a + rest) == a
  {
    if a != [] {
      assert (a + rest)[1..] == a[1..] + rest;
      BeforeTOfPrefix(a[1..], rest);
    } else {
      assert a + rest == rest;
    }
  }

  /** The request body `handleSubmit` sends. */
  datatype Payload = Payload(
    date_mission: string,
    heure_prevue: Value,
    client: string,
    adresse_depart: string,
    adresse_arrivee: string,
    mission_type: string,
    notes: string,
    chauffeur_id: Value,
    vehicule_id: Value,
    statut: string)

  function BuildPayload(f: Form): (p: Payload)
    ensures p.statut == "brouillon" && p.vehicule_id == Null
    ensures p.chauffeur_id == Null <==> f.chauffeurId == ""
    ensures p.client == f.clientNom && p.mission_type == f.typeVehicule
  {
    Payload(BeforeT(f.dateHeure), AfterT(f.dateHeure), f.clientNom, f.adresseDepart, f.adresseArrivee,
            f.typeVehicule, f.notes, if f.chauffeurId == "" then Null else Str(f.chauffeurId), Null, "brouillon")
  }

  /** `handleSubmit`: an invalid form makes no call; a valid one sends the
      payload. */
  function Submit(f: Form): (call: Option<Payload>)
    ensures call.Some? <==> ValidForm(f)
    ensures call.Some? ==> call.value == BuildPayload(f)
  {
    if ValidForm(f) then Some(BuildPayload(f)) else None
  }

  /** The telephone, the passenger count and the estimated price do not reach
      the payload. */
  lemma PayloadIgnoresCollectedFields(f: Form, tel: string, n: Value, prix: string)
    ensures BuildPayload(f.(clientTelephone := tel, nombrePassagers := n, prixEstime := prix)) == BuildPayload(f)
  {
  }

  /** The payload as the body the backend validates. */
  function PayloadFields(p: Payload): Validation.Fields
  {
    map[Validation.DateMission := Str(p.date_mission), Validation.HeurePrevue := p.heure_prevue,
        Validation.Client := Str(p.client), Validation.AdresseDepart := Str(p.adresse_depart),
        Validation.AdresseArrivee := Str(p.adresse_arrivee), Validation.MissionType := Str(p.mission_type),
        Validation.Notes := Str(p.notes), Validation.ChauffeurId := p.chauffeur_id,
        Validation.VehiculeId := p.vehicule_id, "statut" := Str(p.statut)]
  }

  /** Every vehicle type the form offers is refused by the backend's `type`
      rule, so no mission created through this form passes `validateMission`
      or `validateMissionUpdate`. */
  lemma PayloadTypeRejected(f: Form, isDate: string -> bool)
    requires f.typeVehicule in VehicleTypes
    ensures !Validation.RunRules(Validation.ValidateMission, PayloadFields(BuildPayload(f)), isDate).Next?
    ensures !Validation.RunRules(Validation.ValidateMissionUpdate, PayloadFields(BuildPayload(f)), isDate).Next?
  {
    var b := PayloadFields(BuildPayload(f));
    assert Validation.Text(b, Validation.MissionType) == f.typeVehicule;
    assert !Validation.MissionFieldOk(false, b, isDate, 3);
    assert !Validation.MissionFieldOk(true, b, isDate, 3);
    Validation.ValidateMissionIff(b, isDate);
    Validation.ValidateMissionUpdateIff(b, isDate);
  }
}
