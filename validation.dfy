/** The request-field rules of backend/src/middleware/validation.js: each rule
    chain reads one field, optionally skips it when absent, sanitises it and
    checks it; `validate` then answers 400 with every error, or calls `next`. */
module Validation {
  import opened Base
  import opened Http

  /** A request body or query string. */
  type Fields = map<string, Value>

  /** The text a validator sees: the value converted to a string, with `null`
      and `undefined` becoming the empty string. */
  function ValidatorText(v: Value): (t: string)
    ensures v.Str? ==> t == v.s
    ensures v.Null? || v.Undefined? ==> t == ""
  {
    match v
    case Str(s) => s
    case Num(n) => IntToString(n)
    case Null => ""
    case Undefined => ""
  }

  /** What a rule checks; `Sanitize` only trims and never fails. */
  datatype Check =
    | IsDate
    | MatchesHeure
    | NotEmpty
    | TrimmedNotEmpty
    | IsIn(options: set<string>)
    | IsInt
    | Sanitize

  datatype Rule = Rule(field: string, optional: bool, check: Check, msg: string)

  // ---- the time-of-day pattern ^([0-1]?[0-9]|2[0-3]):[0-5][0-9]$ ----

  /** `[0-1]?[0-9]|2[0-3]` */
  predicate HourPart(h: string)
  {
    (|h| == 1 && IsDigit(h[0]))
    || (|h| == 2 && (h[0] == '0' || h[0] == '1') && IsDigit(h[1]))
    || (|h| == 2 && h[0] == '2' && '0' <= h[1] <= '3')
  }

  /** `[0-5][0-9]` */
  predicate MinutePart(m: string)
  {
    |m| == 2 && '0' <= m[0] <= '5' && IsDigit(m[1])
  }

  /** The whole string is an hour part, a colon and a minute part. */
  predicate HeureMatches(s: string)
  {
    exists i | 0 <= i < |s| :: s[i] == ':' && HourPart(s[..i]) && MinutePart(s[i + 1..])
  }

  /** The two-digit text of a number below 100. */
  function TwoDigits(n: nat): (r: string)
    requires n < 100
    ensures |r| == 2 && IsDigit(r[0]) && IsDigit(r[1])
  {
    [DigitChar(n / 10), DigitChar(n % 10)]
  }

  /** A time written `H:MM` (hour below 10 written with one digit) or `HH:MM`. */
  function TimeText(h: nat, m: nat, padded: bool): string
    requires h < 24 && m < 60
  {
    (if padded || h >= 10 then TwoDigits(h) else [DigitChar(h)]) + ":" + TwoDigits(m)
  }

  /** Every time of day from 0:00 to 23:59 is accepted, with one- or
      two-digit hour. */
  lemma HeureAcceptsTimes(h: nat, m: nat, padded: bool)
    requires h < 24 && m < 60
    ensures HeureMatches(TimeText(h, m, padded))
  {
    var s := TimeText(h, m, padded);
    var hp := if padded || h >= 10 then TwoDigits(h) else [DigitChar(h)];
    var i := |hp|;
    assert s[..i] == hp && s[i] == ':' && s[i + 1..] == TwoDigits(m);
    assert DigitChar(m / 10) <= '5' by {
      assert m / 10 <= 5;
    }
    if |hp| == 2 {
      if h < 20 {
        assert h / 10 == 0 || h / 10 == 1;
      } else {
        assert h / 10 == 2 && h % 10 <= 3;
      }
    }
    assert HourPart(hp);
  }

  /** Two digits are the two-digit text of their value. */
  lemma TwoDigitsOf(s: string)
    requires |s| == 2 && IsDigit(s[0]) && IsDigit(s[1])
    ensures DigitValue(s[0]) * 10 + DigitValue(s[1]) < 100
    ensures TwoDigits(DigitValue(s[0]) * 10 + DigitValue(s[1])) == s
  {
    var a, b := DigitValue(s[0]), DigitValue(s[1]);
    var n := a * 10 + b;
    assert n / 10 == a && n % 10 == b;
  }

  /** An hour part is the writing of an hour below 24. */
  lemma HourOf(hs: string) returns (h: nat, padded: bool)
    requires HourPart(hs)
    ensures h < 24
    ensures (if padded || h >= 10 then TwoDigits(h) else [DigitChar(h)]) == hs
  {
    if |hs| == 1 {
      h, padded := DigitValue(hs[0]), false;
    } else {
      TwoDigitsOf(hs);
      h, padded := DigitValue(hs[0]) * 10 + DigitValue(hs[1]), true;
      assert DigitValue(hs[0]) <= 2 && (DigitValue(hs[0]) == 2 ==> DigitValue(hs[1]) <= 3);
    }
  }

  /** A minute part is the two-digit writing of a minute below 60. */
  lemma MinuteOf(ms: string) returns (m: nat)
    requires MinutePart(ms)
    ensures m < 60 && TwoDigits(m) == ms
  {
    TwoDigitsOf(ms);
    m := DigitValue(ms[0]) * 10 + DigitValue(ms[1]);
    assert DigitValue(ms[0]) <= 5;
  }

  /** Only valid times are accepted: every accepted string is some `h:mm` or
      `hh:mm` with h below 24 and mm below 60. */
  lemma HeureOnlyTimes(s: string)
    requires HeureMatches(s)
    ensures exists h: nat, m: nat, padded: bool ::
              h < 24 && m < 60 && s == TimeText(h, m, padded)
  {
    var i :| 0 <= i < |s| && s[i] == ':' && HourPart(s[..i]) && MinutePart(s[i + 1..]);
    var hs, ms := s[..i], s[i + 1..];
    var h, padded := HourOf(hs);
    var m := MinuteOf(ms);
    assert s == hs + ":" + ms;
    assert s == TimeText(h, m, padded);
  }

  /** Examples at the edges of the pattern: one- and two-digit hours pass. */
  lemma HeureAcceptsExamples()
    ensures HeureMatches("7:05") && HeureMatches("07:05") && HeureMatches("23:59")
  {
    HeureAcceptsTimes(7, 5, false);
    HeureAcceptsTimes(7, 5, true);
    HeureAcceptsTimes(23, 59, true);
    assert TimeText(7, 5, false) == "7:05";
    assert TimeText(7, 5, true) == "07:05";
    assert TimeText(23, 59, true) == "23:59";
  }

  /** Hour 24, minute 60 and a one-digit minute are refused. */
  lemma HeureRejects24()
    ensures !HeureMatches("24:00")
  {
    var s := "24:00";
    forall i | 0 <= i < |s| && s[i] == ':' ensures !HourPart(s[..i]) {
      assert i == 2;
      assert s[..i] == "24";
    }
  }

  lemma HeureRejects60()
    ensures !HeureMatches("12:60")
  {
    var s := "12:60";
    forall i | 0 <= i < |s| && s[i] == ':' ensures !MinutePart(s[i + 1..]) {
      assert i == 2;
      assert s[i + 1..] == "60";
    }
  }

  lemma HeureRejectsShortMinute()
    ensures !HeureMatches("7:5")
  {
    var s := "7:5";
    forall i | 0 <= i < |s| && s[i] == ':' ensures !MinutePart(s[i + 1..]) {
      assert i == 1;
    }
  }

  // ---- integers: validator.js isInt ----

  /** `^[-+]?[0-9]+$` */
  predicate IntText(s: string)
  {
    if s != [] && (s[0] == '-' || s[0] == '+') then |s| >= 2 && AllDigits(s[1..])
    else s != [] && AllDigits(s)
  }

  /** An integer value written without an exponent passes `isInt`. */
  lemma IntTextOfNumber(n: int)
    requires -ExponentFrom < n < ExponentFrom
    ensures IntText(ValidatorText(Num(n)))
  {
    var t := IntToString(n);
    if n < 0 {
      assert t[1..] == NatToString(-n);
    }
  }

  // ---- rules ----

  predicate Passes(check: Check, text: string, isDate: string -> bool)
  {
    match check
    case IsDate => isDate(text)
    case MatchesHeure => HeureMatches(text)
    case NotEmpty => text != ""
    case TrimmedNotEmpty => !Blank(text)
    case IsIn(options) => text in options
    case IsInt => IntText(text)
    case Sanitize => true
  }

  /** The error a rule records for these fields, if any. `optional()` skips a
      field that is undefined. */
  function RuleError(rule: Rule, fields: Fields, isDate: string -> bool): (e: Option<FieldError>)
    ensures e.Some? ==> e.value == FieldError(rule.field, rule.msg)
    ensures e.Some? <==> !(rule.optional && Field(fields, rule.field) == Undefined)
                         && !Passes(rule.check, ValidatorText(Field(fields, rule.field)), isDate)
  {
    var v := Field(fields, rule.field);
    if rule.optional && v == Undefined then None
    else if Passes(rule.check, ValidatorText(v), isDate) then None
    else Some(FieldError(rule.field, rule.msg))
  }

  /** All errors of a rule chain list, in rule order. */
  function ChainErrors(rules: seq<Rule>, fields: Fields, isDate: string -> bool): (es: seq<FieldError>)
    ensures |es| <= |rules|
    ensures forall e :: e in es ==> exists r :: r in rules && RuleError(r, fields, isDate) == Some(e)
  {
    if rules == [] then []
    else
      var rest := ChainErrors(rules[1..], fields, isDate);
      match RuleError(rules[0], fields, isDate)
      case Some(e) => [e] + rest
      case None => rest
  }

  /** No error is recorded exactly when every rule is satisfied. */
  lemma {:induction false} ErrorsEmptyIff(rules: seq<Rule>, fields: Fields, isDate: string -> bool)
    ensures ChainErrors(rules, fields, isDate) == [] <==>
              forall i :: 0 <= i < |rules| ==> RuleError(rules[i], fields, isDate).None?
  {
    if rules != [] {
      ErrorsEmptyIff(rules[1..], fields, isDate);
      assert forall i :: 1 <= i < |rules| ==> rules[i] == rules[1..][i - 1];
    }
  }

  /** `validate`: 400 with the full list of errors, or `next`. */
  function Validate(errors: seq<FieldError>): (o: Outcome)
    ensures o.Next? <==> errors == []
    ensures !o.Next? ==> o == Respond(Reply(400, Errors(errors)))
  {
    if errors != [] then Respond(Reply(400, Errors(errors))) else Next
  }

  /** A rule array ending in `validate`. */
  function RunRules(rules: seq<Rule>, fields: Fields, isDate: string -> bool): Outcome
  {
    Validate(ChainErrors(rules, fields, isDate))
  }

  const MissionTypes: set<string> := {"CPAM", "Privé"}

  // Field names and messages, named so that rules and the field-by-field
  // description below share them.
  const DateMission := "date_mission"
  const HeurePrevue := "heure_prevue"
  const Client := "client"
  const MissionType := "type"
  const AdresseDepart := "adresse_depart"
  const AdresseArrivee := "adresse_arrivee"
  const ChauffeurId := "chauffeur_id"
  const VehiculeId := "vehicule_id"
  const Notes := "notes"
  const DateMsg := "Date de mission invalide"
  const HeureMsg := "Heure prévue invalide (format HH:MM)"
  const HeureUpdateMsg := "Heure prévue invalide"
  const ClientMsg := "Client requis"
  const TypeMsg := "Type doit être CPAM ou Privé"
  const DepartMsg := "Adresse de départ requise"
  const ArriveeMsg := "Adresse d'arrivée requise"
  const ChauffeurMsg := "ID chauffeur invalide"
  const VehiculeMsg := "ID véhicule invalide"

  /** The create rules, or the update rules when every field is optional. */
  function MissionRules(update: bool): seq<Rule>
  {
    [ Rule(DateMission, update, IsDate, DateMsg),
      Rule(HeurePrevue, update, MatchesHeure, if update then HeureUpdateMsg else HeureMsg),
      Rule(Client, update, TrimmedNotEmpty, ClientMsg),
      Rule(MissionType, update, IsIn(MissionTypes), TypeMsg),
      Rule(AdresseDepart, update, TrimmedNotEmpty, DepartMsg),
      Rule(AdresseArrivee, update, TrimmedNotEmpty, ArriveeMsg),
      Rule(ChauffeurId, true, IsInt, ChauffeurMsg),
      Rule(VehiculeId, true, IsInt, VehiculeMsg),
      Rule(Notes, true, Sanitize, "") ]
  }

  const ValidateMission := MissionRules(false)
  const ValidateMissionUpdate := MissionRules(true)
  const ValidateLogin := [
    Rule("username", false, TrimmedNotEmpty, "Username requis"),
    Rule("password", false, NotEmpty, "Mot de passe requis")]
  const ValidateCommentaire := [Rule("commentaire", false, TrimmedNotEmpty, "Commentaire requis")]
  const ValidateFcmToken := [Rule("fcm_token", false, TrimmedNotEmpty, "Token FCM requis")]
  const ValidateDateParams := [
    Rule("date", true, IsDate, "Date invalide"),
    Rule("debut", true, IsDate, "Date début invalide"),
    Rule("fin", true, IsDate, "Date fin invalide")]

  function Text(fields: Fields, key: string): string
  {
    ValidatorText(Field(fields, key))
  }

  predicate Present(fields: Fields, key: string)
  {
    Field(fields, key) != Undefined
  }

  /** Whether a mission rule applies to the field `key`: always on creation,
      only when the field is present on update. */
  predicate Required(update: bool, b: Fields, key: string)
  {
    !update || Present(b, key)
  }

  /** What the mission rule at position `i` asks of the body. */
  predicate MissionFieldOk(update: bool, b: Fields, isDate: string -> bool, i: nat)
  {
    if i == 0 then Required(update, b, DateMission) ==> isDate(Text(b, DateMission))
    else if i == 1 then Required(update, b, HeurePrevue) ==> HeureMatches(Text(b, HeurePrevue))
    else if i == 2 then Required(update, b, Client) ==> !Blank(Text(b, Client))
    else if i == 3 then Required(update, b, MissionType) ==> Text(b, MissionType) in MissionTypes
    else if i == 4 then Required(update, b, AdresseDepart) ==> !Blank(Text(b, AdresseDepart))
    else if i == 5 then Required(update, b, AdresseArrivee) ==> !Blank(Text(b, AdresseArrivee))
    else if i == 6 then Present(b, ChauffeurId) ==> IntText(Text(b, ChauffeurId))
    else if i == 7 then Present(b, VehiculeId) ==> IntText(Text(b, VehiculeId))
    else true
  }

  /** A mission body as the mission rules want it, field by field. */
  predicate MissionFieldsOk(update: bool, b: Fields, isDate: string -> bool)
  {
    forall i: nat | i < 9 :: MissionFieldOk(update, b, isDate, i)
  }

  lemma NotBlankIff(s: string)
    ensures Trim(s) != "" <==> !AllSpace(s)
  {
    BlankIff(s);
  }

  /** The mission rule at position `i` fails exactly when the body misses
      that position's requirement. */
  lemma MissionRuleAt(update: bool, b: Fields, isDate: string -> bool, i: nat)
    requires i < 9
    ensures RuleError(MissionRules(update)[i], b, isDate).None? <==> MissionFieldOk(update, b, isDate, i)
  {
    if i == 0 {
    } else if i == 1 {
    } else if i == 2 {
    } else if i == 3 {
    } else if i == 4 {
    } else if i == 5 {
    } else if i == 6 {
    } else if i == 7 {
    }
  }

  /** Rule by rule, the mission rules say what `MissionFieldsOk` says. */
  lemma MissionRulesMeaning(update: bool, b: Fields, isDate: string -> bool)
    ensures (forall i :: 0 <= i < |MissionRules(update)| ==>
               RuleError(MissionRules(update)[i], b, isDate).None?)
            <==> MissionFieldsOk(update, b, isDate)
  {
    assert |MissionRules(update)| == 9;
    forall i: nat | i < 9
      ensures RuleError(MissionRules(update)[i], b, isDate).None? <==> MissionFieldOk(update, b, isDate, i)
    {
      MissionRuleAt(update, b, isDate, i);
    }
  }

  /** Creation passes `validate` exactly for well-formed mission bodies. */
  lemma ValidateMissionIff(b: Fields, isDate: string -> bool)
    ensures RunRules(ValidateMission, b, isDate).Next? <==> MissionFieldsOk(false, b, isDate)
  {
    ErrorsEmptyIff(ValidateMission, b, isDate);
    MissionRulesMeaning(false, b, isDate);
  }

  /** An update passes exactly when every field it carries is well formed. */
  lemma ValidateMissionUpdateIff(b: Fields, isDate: string -> bool)
    ensures RunRules(ValidateMissionUpdate, b, isDate).Next? <==> MissionFieldsOk(true, b, isDate)
  {
    ErrorsEmptyIff(ValidateMissionUpdate, b, isDate);
    MissionRulesMeaning(true, b, isDate);
  }

  /** An empty update body passes, and every body the creation rules accept is
      also a valid update. */
  lemma UpdateWeakerThanCreate(b: Fields, isDate: string -> bool)
    ensures RunRules(ValidateMissionUpdate, map[], isDate) == Next
    ensures RunRules(ValidateMission, b, isDate).Next? ==> RunRules(ValidateMissionUpdate, b, isDate).Next?
  {
    ValidateMissionUpdateIff(map[], isDate);
    ValidateMissionIff(b, isDate);
    ValidateMissionUpdateIff(b, isDate);
    forall i: nat | i < 9 ensures MissionFieldOk(true, map[], isDate, i) {
    }
    if MissionFieldsOk(false, b, isDate) {
      forall i: nat | i < 9 ensures MissionFieldOk(true, b, isDate, i) {
        assert MissionFieldOk(false, b, isDate, i);
      }
    }
  }

  /** A comment (or an FCM token) passes iff it has a non-white-space
      character; otherwise the answer is 400 with that one error. */
  lemma ValidateCommentaireIff(b: Fields, isDate: string -> bool)
    ensures RunRules(ValidateCommentaire, b, isDate).Next? <==> !AllSpace(Text(b, "commentaire"))
    ensures AllSpace(Text(b, "commentaire")) ==>
              RunRules(ValidateCommentaire, b, isDate)
                == Respond(Reply(400, Errors([FieldError("commentaire", "Commentaire requis")])))
  {
    NotBlankIff(Text(b, "commentaire"));
    var rs := ValidateCommentaire;
    assert rs[1..] == [];
    if AllSpace(Text(b, "commentaire")) {
      var e := FieldError("commentaire", "Commentaire requis");
      assert RuleError(rs[0], b, isDate) == Some(e);
      assert ChainErrors(rs, b, isDate) == [e] + ChainErrors(rs[1..], b, isDate);
      assert ChainErrors(rs[1..], b, isDate) == [];
      assert ChainErrors(rs, b, isDate) == [e];
    }
  }

  lemma ValidateFcmTokenIff(b: Fields, isDate: string -> bool)
    ensures RunRules(ValidateFcmToken, b, isDate).Next? <==> !AllSpace(Text(b, "fcm_token"))
  {
    NotBlankIff(Text(b, "fcm_token"));
    assert ValidateFcmToken[1..] == [];
  }

  /** Login needs a non-blank username and a non-empty password (which is not
      trimmed: a password of spaces passes). */
  lemma ValidateLoginIff(b: Fields, isDate: string -> bool)
    ensures RunRules(ValidateLogin, b, isDate).Next? <==>
              !AllSpace(Text(b, "username")) && Text(b, "password") != ""
  {
    NotBlankIff(Text(b, "username"));
    ErrorsEmptyIff(ValidateLogin, b, isDate);
  }

  /** Each date query parameter is checked only when given: no parameters at
      all pass, and a given one must be a date. */
  lemma ValidateDateParamsIff(q: Fields, isDate: string -> bool)
    ensures RunRules(ValidateDateParams, q, isDate).Next? <==>
              (Present(q, "date") ==> isDate(Text(q, "date")))
              && (Present(q, "debut") ==> isDate(Text(q, "debut")))
              && (Present(q, "fin") ==> isDate(Text(q, "fin")))
  {
    var rs := ValidateDateParams;
    ErrorsEmptyIff(rs, q, isDate);
    assert RuleError(rs[0], q, isDate).None? <==> (Present(q, "date") ==> isDate(Text(q, "date")));
    assert RuleError(rs[1], q, isDate).None? <==> (Present(q, "debut") ==> isDate(Text(q, "debut")));
    assert RuleError(rs[2], q, isDate).None? <==> (Present(q, "fin") ==> isDate(Text(q, "fin")));
  }
}
