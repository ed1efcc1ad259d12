/** The mission record shared by the dispatcher and driver clients, its status
    vocabulary, and counting and filtering of mission lists by status. */
module MissionModel {
  import opened Base

  /** The five lifecycle statuses, and any other text a record may carry. */
  datatype StatusCode = Brouillon | Envoyee | Confirmee | Pec | Terminee | Other(raw: string)

  const KnownTexts: set<string> := {"brouillon", "envoyee", "confirmee", "pec", "terminee"}

  /** A status value: `Other` never spells one of the five known statuses, so
      every status text has exactly one representation. */
  type Status = s: StatusCode | !s.Other? || s.raw !in KnownTexts witness Brouillon

  const KnownStatuses: set<Status> := {Brouillon, Envoyee, Confirmee, Pec, Terminee}

  predicate Known(s: Status)
  {
    !s.Other?
  }

  /** The text stored in `statut`. */
  function Text(s: Status): (t: string)
    ensures Known(s) <==> t in KnownTexts
  {
    match s
    case Brouillon => "brouillon"
    case Envoyee => "envoyee"
    case Confirmee => "confirmee"
    case Pec => "pec"
    case Terminee => "terminee"
    case Other(raw) => raw
  }

  /** The status a `statut` text denotes. */
  function Parse(t: string): (s: Status)
    ensures Text(s) == t
  {
    if t == "brouillon" then Brouillon
    else if t == "envoyee" then Envoyee
    else if t == "confirmee" then Confirmee
    else if t == "pec" then Pec
    else if t == "terminee" then Terminee
    else Other(t)
  }

  /** Text and Parse are inverse bijections: comparing texts with `===` is
      comparing statuses. */
  lemma ParseText(s: Status)
    ensures Parse(Text(s)) == s
  {
  }

  lemma TextInjective(a: Status, b: Status)
    ensures Text(a) == Text(b) <==> a == b
  {
    ParseText(a);
    ParseText(b);
  }

  datatype Mission = Mission(
    id: int,
    statut: Status,
    date_mission: Value,
    heure_prevue: string,
    chauffeur_id: Option<int>,
    mission_type: string,
    client: string)

  /** `missions.filter(m => S.includes(m.statut))`. */
  function FilterIn(ms: seq<Mission>, S: set<Status>): (r: seq<Mission>)
    ensures |r| <= |ms|
    ensures forall m :: m in r <==> m in ms && m.statut in S
  {
    if ms == [] then []
    else if ms[0].statut in S then [ms[0]] + FilterIn(ms[1..], S)
    else FilterIn(ms[1..], S)
  }

  /** `missions.filter(m => S.includes(m.statut)).length`. */
  function CountIn(ms: seq<Mission>, S: set<Status>): nat
  {
    |FilterIn(ms, S)|
  }

  function CountStatus(ms: seq<Mission>, s: Status): nat
  {
    CountIn(ms, {s})
  }

  /** The statuses of a list, in order. */
  function Statuses(ms: seq<Mission>): (r: seq<Status>)
    ensures |r| == |ms|
  {
    if ms == [] then [] else [ms[0].statut] + Statuses(ms[1..])
  }

  /** Counting one status is counting its occurrences among the statuses. */
  lemma {:induction false} CountStatusOccurrences(ms: seq<Mission>, s: Status)
    ensures CountStatus(ms, s) == multiset(Statuses(ms))[s]
  {
    if ms != [] {
      CountStatusOccurrences(ms[1..], s);
    }
  }

  /** Filtering keeps the relative order: it distributes over concatenation. */
  lemma {:induction false} FilterInAppend(a: seq<Mission>, b: seq<Mission>, S: set<Status>)
    ensures FilterIn(a + b, S) == FilterIn(a, S) + FilterIn(b, S)
  {
    if a != [] {
      assert (a + b)[0] == a[0] && (a + b)[1..] == a[1..] + b;
      FilterInAppend(a[1..], b, S);
    } else {
      assert a + b == b;
    }
  }

  /** Counting over two disjoint status sets adds up. */
  lemma {:induction false} CountInUnion(ms: seq<Mission>, A: set<Status>, B: set<Status>)
    requires A !! B
    ensures CountIn(ms, A + B) == CountIn(ms, A) + CountIn(ms, B)
  {
    if ms != [] {
      CountInUnion(ms[1..], A, B);
    }
  }

  /** A count reaches the list length exactly when every status is in the set. */
  lemma {:induction false} CountInFull(ms: seq<Mission>, S: set<Status>)
    ensures CountIn(ms, S) == |ms| <==> forall i :: 0 <= i < |ms| ==> ms[i].statut in S
  {
    if ms != [] {
      CountInFull(ms[1..], S);
      if ms[0].statut in S {
        assert (forall i :: 0 <= i < |ms[1..]| ==> ms[1..][i].statut in S)
            <==> (forall i :: 0 <= i < |ms| ==> ms[i].statut in S) by {
          forall i | 0 <= i < |ms[1..]| ensures ms[1..][i] == ms[i + 1] { }
        }
      } else {
        assert |FilterIn(ms[1..], S)| <= |ms[1..]|;
      }
    }
  }

  /** Counting is monotone in the status set. */
  lemma {:induction false} CountInMono(ms: seq<Mission>, A: set<Status>, B: set<Status>)
    requires A <= B
    ensures CountIn(ms, A) <= CountIn(ms, B)
  {
    if ms != [] {
      CountInMono(ms[1..], A, B);
    }
  }
}
