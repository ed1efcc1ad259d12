/** The mission router of backend/src/routes/missions.js: a table from verb
    and path pattern to a chain of guards and a controller action, matched
    first to last, whose guards run left to right. */
module MissionRoutes {
  import opened Base
  import opened Http
  import Auth
  import Validation

  /** The request methods the table answers; Express serves `HEAD` with the
      `GET` routes. */
  datatype Verb = Get | Head | Post | Put | Delete

  /** A path pattern segment: a literal, or a `:id` parameter (one non-empty
      segment). */
  datatype Segment = Lit(text: string) | Param

  datatype Guard =
    | VerifyToken
    | RequireSecretaire
    | RequireChauffeur
    | ValidateMission
    | ValidateMissionUpdate
    | ValidateCommentaire

  /** The controller actions (the controller itself is not part of this model). */
  datatype Action =
    | Migrate
    | Creer
    | Lister
    | Obtenir
    | Modifier
    | Supprimer
    | Envoyer
    | EnvoyerParDate
    | Confirmer
    | PriseEnCharge
    | Terminer
    | AjouterCommentaire

  datatype Route = Route(verb: Verb, pattern: seq<Segment>, guards: seq<Guard>, action: Action)

  const MigrateRoute := Route(Get, [Lit("migrate")], [], Migrate)
  const CreerRoute := Route(Post, [], [VerifyToken, RequireSecretaire, ValidateMission], Creer)
  const ListerRoute := Route(Get, [], [VerifyToken, RequireSecretaire], Lister)
  const ObtenirRoute := Route(Get, [Param], [VerifyToken], Obtenir)
  const ModifierRoute := Route(Put, [Param], [VerifyToken, RequireSecretaire, ValidateMissionUpdate], Modifier)
  const SupprimerRoute := Route(Delete, [Param], [VerifyToken, RequireSecretaire], Supprimer)
  const EnvoyerRoute := Route(Post, [Param, Lit("envoyer")], [VerifyToken, RequireSecretaire], Envoyer)
  const EnvoyerParDateRoute :=
    Route(Post, [Lit("envoyer-date")], [VerifyToken, RequireSecretaire], EnvoyerParDate)
  const ConfirmerRoute := Route(Post, [Param, Lit("confirmer")], [VerifyToken, RequireChauffeur], Confirmer)
  const PecRoute := Route(Post, [Param, Lit("pec")], [VerifyToken, RequireChauffeur], PriseEnCharge)
  const TerminerRoute := Route(Post, [Param, Lit("terminer")], [VerifyToken, RequireChauffeur], Terminer)
  const CommentaireRoute :=
    Route(Post, [Param, Lit("commentaire")], [VerifyToken, ValidateCommentaire], AjouterCommentaire)

  /** The table in declaration order; paths are relative to the router's mount
      point and split at `/` (the root path is the empty sequence). */
  const Routes: seq<Route> := [
    MigrateRoute, CreerRoute, ListerRoute, ObtenirRoute, ModifierRoute, SupprimerRoute,
    EnvoyerRoute, EnvoyerParDateRoute, ConfirmerRoute, PecRoute, TerminerRoute, CommentaireRoute]

  const SecretaireActions: set<Action> := {Creer, Lister, Modifier, Supprimer, Envoyer, EnvoyerParDate}
  const ChauffeurActions: set<Action> := {Confirmer, PriseEnCharge, Terminer}
  const AnyRoleActions: set<Action> := {Obtenir, AjouterCommentaire}

  /** ASCII upper case folded to lower case; every other character is kept. */
  function LowerChar(c: char): char
  {
    if 'A' <= c <= 'Z' then (c as int + 32) as char else c
  }

  function LowerText(s: string): (r: string)
    ensures |r| == |s| && forall i :: 0 <= i < |s| ==> r[i] == LowerChar(s[i])
  {
    seq(|s|, i requires 0 <= i < |s| => LowerChar(s[i]))
  }

  function LowerPath(path: seq<string>): (r: seq<string>)
    ensures |r| == |path| && forall i :: 0 <= i < |path| ==> r[i] == LowerText(path[i])
  {
    seq(|path|, i requires 0 <= i < |path| => LowerText(path[i]))
  }

  /** The router is case-insensitive (Express's default): a literal segment
      matches whatever has the same lower-case form. */
  predicate SegmentMatches(p: Segment, s: string)
  {
    match p
    case Lit(t) => LowerText(s) == LowerText(t)
    case Param => s != ""
  }

  /** A route answers its own verb, and a `GET` route also answers `HEAD`. */
  predicate Serves(routeVerb: Verb, verb: Verb)
  {
    routeVerb == verb || (verb == Head && routeVerb == Get)
  }

  predicate Matches(r: Route, verb: Verb, path: seq<string>)
  {
    Serves(r.verb, verb) && |path| == |r.pattern|
    && forall i :: 0 <= i < |path| ==> SegmentMatches(r.pattern[i], path[i])
  }

  function FirstMatchFrom(verb: Verb, path: seq<string>, from: nat): (k: Option<nat>)
    requires from <= |Routes|
    ensures k.Some? ==> from <= k.value < |Routes| && Matches(Routes[k.value], verb, path)
    ensures forall j :: from <= j < |Routes| && (k.None? || j < k.value) ==> !Matches(Routes[j], verb, path)
    decreases |Routes| - from
  {
    if from == |Routes| then None
    else if Matches(Routes[from], verb, path) then Some(from)
    else FirstMatchFrom(verb, path, from + 1)
  }

  /** The route that handles a request: the first one declared that matches. */
  function Resolve(verb: Verb, path: seq<string>): (k: Option<nat>)
    ensures k.Some? ==> k.value < |Routes| && Matches(Routes[k.value], verb, path)
    ensures k.Some? ==> forall j :: 0 <= j < k.value ==> !Matches(Routes[j], verb, path)
    ensures k.None? ==> forall j :: 0 <= j < |Routes| ==> !Matches(Routes[j], verb, path)
  {
    FirstMatchFrom(verb, path, 0)
  }

  /** One guard applied to the request; the validators read the body. */
  function RunGuard(g: Guard, req: Request, body: Validation.Fields, verify: Verifier,
                    isDate: string -> bool): Step
  {
    match g
    case VerifyToken => Auth.VerifyToken(req, verify)
    case RequireSecretaire => Auth.RequireSecretaire(req)
    case RequireChauffeur => Auth.RequireChauffeur(req)
    case ValidateMission => Step(Validation.RunRules(Validation.ValidateMission, body, isDate), req)
    case ValidateMissionUpdate =>
      Step(Validation.RunRules(Validation.ValidateMissionUpdate, body, isDate), req)
    case ValidateCommentaire =>
      Step(Validation.RunRules(Validation.ValidateCommentaire, body, isDate), req)
  }

  /** Guards run left to right; the first that does not call `next` ends the
      chain. */
  function RunGuards(guards: seq<Guard>, req: Request, body: Validation.Fields, verify: Verifier,
                     isDate: string -> bool): Step
  {
    if guards == [] then Step(Next, req)
    else
      var st := RunGuard(guards[0], req, body, verify, isDate);
      if st.outcome.Next? then RunGuards(guards[1..], st.req, body, verify, isDate) else st
  }

  /** What the router does with a request: no route (the framework's 404), an
      answer from a guard, an uncaught exception, or the action reached with
      the request as the guards left it. */
  datatype Dispatched = NoRoute | Halted(reply: Reply) | Crashed | Reached(action: Action, req: Request)

  function Dispatch(verb: Verb, path: seq<string>, req: Request, body: Validation.Fields,
                    verify: Verifier, isDate: string -> bool): Dispatched
  {
    match Resolve(verb, path)
    case None => NoRoute
    case Some(k) =>
      var st := RunGuards(Routes[k].guards, req, body, verify, isDate);
      match st.outcome
      case Next => Reached(Routes[k].action, st.req)
      case Respond(reply) => Halted(reply)
      case Throw => Crashed
  }

  // ---- what a guard chain admits, once the token has been verified ----

  /** Whether a guard lets an authenticated caller with claims `c` through. */
  predicate Admits(g: Guard, c: Claims, body: Validation.Fields, isDate: string -> bool)
  {
    match g
    case VerifyToken => true
    case RequireSecretaire => c.role == Secretaire
    case RequireChauffeur => c.role == Chauffeur
    case ValidateMission => Validation.MissionFieldsOk(false, body, isDate)
    case ValidateMissionUpdate => Validation.MissionFieldsOk(true, body, isDate)
    case ValidateCommentaire => !AllSpace(Validation.Text(body, "commentaire"))
  }

  predicate NoTokenGuard(guards: seq<Guard>)
  {
    forall k :: 0 <= k < |guards| ==> guards[k] != VerifyToken
  }

  lemma GuardAdmits(g: Guard, req: Request, body: Validation.Fields, verify: Verifier,
                    isDate: string -> bool)
    requires g != VerifyToken && req.user.Some?
    ensures RunGuard(g, req, body, verify, isDate).req == req
    ensures RunGuard(g, req, body, verify, isDate).outcome.Next? <==> Admits(g, req.user.value, body, isDate)
  {
    match g
    case ValidateMission => Validation.ValidateMissionIff(body, isDate);
    case ValidateMissionUpdate => Validation.ValidateMissionUpdateIff(body, isDate);
    case ValidateCommentaire => Validation.ValidateCommentaireIff(body, isDate);
    case _ =>
  }

  /** After the token check, the rest of a chain leaves the request alone and
      passes exactly when every guard admits the caller's claims. */
  lemma {:induction false} RunGuardsAfterToken(guards: seq<Guard>, req: Request,
      body: Validation.Fields, verify: Verifier, isDate: string -> bool)
    requires NoTokenGuard(guards) && req.user.Some?
    ensures RunGuards(guards, req, body, verify, isDate).req == req
    ensures RunGuards(guards, req, body, verify, isDate).outcome.Next? <==>
              forall k :: 0 <= k < |guards| ==> Admits(guards[k], req.user.value, body, isDate)
  {
    if guards != [] {
      GuardAdmits(guards[0], req, body, verify, isDate);
      RunGuardsAfterToken(guards[1..], req, body, verify, isDate);
      assert forall k :: 1 <= k < |guards| ==> guards[k] == guards[1..][k - 1];
    }
  }

  // ---- the shape of the table ----

  /** The role a route demands, read off its guards. */
  function RoleGate(r: Route): Option<string>
  {
    if RequireSecretaire in r.guards then Some(Secretaire)
    else if RequireChauffeur in r.guards then Some(Chauffeur)
    else None
  }

  /** Every route but `/migrate` starts with the token check, never repeats it,
      and puts its role guard, if any, right after it; the role demanded is
      the one the action set says. */
  predicate WellShaped(r: Route)
  {
    (r.action == Migrate <==> r.guards == [])
    && (r.guards != [] ==> r.guards[0] == VerifyToken && NoTokenGuard(r.guards[1..]))
    && (RoleGate(r).Some? ==> |r.guards| >= 2 && (r.guards[1] == RequireSecretaire || r.guards[1] == RequireChauffeur))
    && (r.action in SecretaireActions <==> RoleGate(r) == Some(Secretaire))
    && (r.action in ChauffeurActions <==> RoleGate(r) == Some(Chauffeur))
    && (r.action in AnyRoleActions ==> RoleGate(r).None? && r.action != Migrate)
  }

  lemma CreationRoutesWellShaped()
    ensures WellShaped(CreerRoute) && WellShaped(ListerRoute) && WellShaped(ModifierRoute)
  {
  }

  lemma SendingRoutesWellShaped()
    ensures WellShaped(SupprimerRoute) && WellShaped(EnvoyerRoute) && WellShaped(EnvoyerParDateRoute)
  {
  }

  lemma OpenRoutesWellShaped()
    ensures WellShaped(MigrateRoute) && WellShaped(ObtenirRoute) && WellShaped(CommentaireRoute)
  {
  }

  lemma DriverRoutesWellShaped()
    ensures WellShaped(ConfirmerRoute) && WellShaped(PecRoute) && WellShaped(TerminerRoute)
  {
  }

  lemma TableWellShaped(k: nat)
    requires k < |Routes|
    ensures WellShaped(Routes[k])
  {
    CreationRoutesWellShaped();
    SendingRoutesWellShaped();
    OpenRoutesWellShaped();
    DriverRoutesWellShaped();
  }

  // ---- access control ----

  /** Reaching any action other than the migration requires a verified token,
      whose claims the action then sees as `req.user`. */
  lemma DispatchNeedsToken(verb: Verb, path: seq<string>, req: Request, body: Validation.Fields,
                           verify: Verifier, isDate: string -> bool)
    ensures var d := Dispatch(verb, path, req, body, verify, isDate);
      d.Reached? && d.action != Migrate ==>
        TokenClaims(req, verify).Some? && d.req == req.(user := TokenClaims(req, verify))
  {
    if Resolve(verb, path).Some? {
      var k := Resolve(verb, path).value;
      TableWellShaped(k);
      Auth.VerifyTokenPassesIff(req, verify);
      var st := Auth.VerifyToken(req, verify);
      if Routes[k].action != Migrate && st.outcome.Next? {
        RunGuardsAfterToken(Routes[k].guards[1..], st.req, body, verify, isDate);
      }
    }
  }

  /** Reaching the action of a route with a role guard requires that role. */
  lemma DispatchNeedsRole(verb: Verb, path: seq<string>, req: Request, body: Validation.Fields,
                          verify: Verifier, isDate: string -> bool, k: nat)
    requires Resolve(verb, path) == Some(k) && RoleGate(Routes[k]).Some?
    requires Dispatch(verb, path, req, body, verify, isDate).Reached?
    ensures TokenClaims(req, verify).Some?
    ensures TokenClaims(req, verify).value.role == RoleGate(Routes[k]).value
  {
    var r := Routes[k];
    TableWellShaped(k);
    Auth.VerifyTokenPassesIff(req, verify);
    var st := Auth.VerifyToken(req, verify);
    RunGuardsAfterToken(r.guards[1..], st.req, body, verify, isDate);
    assert Admits(r.guards[1..][0], st.req.user.value, body, isDate);
  }

  /** Create, list, edit, delete, send and send-by-date are reached only with a
      `secretaire` token; confirm, pick-up and complete only with a
      `chauffeur` token. */
  lemma DispatchRoleActions(verb: Verb, path: seq<string>, req: Request, body: Validation.Fields,
                            verify: Verifier, isDate: string -> bool)
    ensures var d := Dispatch(verb, path, req, body, verify, isDate);
      var c := TokenClaims(req, verify);
      (d.Reached? && d.action in SecretaireActions ==> c.Some? && c.value.role == Secretaire)
      && (d.Reached? && d.action in ChauffeurActions ==> c.Some? && c.value.role == Chauffeur)
  {
    var d := Dispatch(verb, path, req, body, verify, isDate);
    if d.Reached? {
      var k := Resolve(verb, path).value;
      TableWellShaped(k);
      if RoleGate(Routes[k]).Some? {
        DispatchNeedsRole(verb, path, req, body, verify, isDate, k);
      }
    }
  }

  /** Conversely, a caller with a verified token reaches the action of the
      route that matches whenever its role is the one the route demands and
      its body passes the route's validator: in particular a driver reaches
      confirm, pick-up and complete for any mission id. */
  lemma DispatchAdmits(verb: Verb, path: seq<string>, req: Request, body: Validation.Fields,
                       verify: Verifier, isDate: string -> bool, k: nat)
    requires Resolve(verb, path) == Some(k) && Routes[k].action != Migrate
    requires TokenClaims(req, verify).Some?
    requires forall j :: 0 <= j < |Routes[k].guards| ==>
               Admits(Routes[k].guards[j], TokenClaims(req, verify).value, body, isDate)
    ensures Dispatch(verb, path, req, body, verify, isDate)
              == Reached(Routes[k].action, req.(user := TokenClaims(req, verify)))
  {
    var r := Routes[k];
    TableWellShaped(k);
    Auth.VerifyTokenPassesIff(req, verify);
    var st := Auth.VerifyToken(req, verify);
    RunGuardsAfterToken(r.guards[1..], st.req, body, verify, isDate);
    assert forall j :: 0 <= j < |r.guards[1..]| ==> r.guards[1..][j] == r.guards[j + 1];
  }

  /** Guards answer in order. First the token: a missing or bad token is 401
      on every route but the migration, whatever the role and the body. */
  lemma DispatchTokenFirst(verb: Verb, path: seq<string>, req: Request, body: Validation.Fields,
                           verify: Verifier, isDate: string -> bool, k: nat)
    requires Resolve(verb, path) == Some(k) && Routes[k].action != Migrate
    requires TokenClaims(req, verify).None?
    ensures Dispatch(verb, path, req, body, verify, isDate).Halted?
    ensures Dispatch(verb, path, req, body, verify, isDate).reply.status == 401
  {
    TableWellShaped(k);
    Auth.VerifyTokenPassesIff(req, verify);
  }

  /** A chain that checks the token and then a role refuses a verified
      caller of another role with 403, before any later guard runs. */
  lemma RoleRefusal(guards: seq<Guard>, req: Request, body: Validation.Fields,
                    verify: Verifier, isDate: string -> bool)
    requires |guards| >= 2 && guards[0] == VerifyToken
    requires guards[1] == RequireSecretaire || guards[1] == RequireChauffeur
    requires TokenClaims(req, verify).Some?
    requires TokenClaims(req, verify).value.role !=
               (if guards[1] == RequireSecretaire then Secretaire else Chauffeur)
    ensures RunGuards(guards, req, body, verify, isDate).outcome.Respond?
    ensures RunGuards(guards, req, body, verify, isDate).outcome.reply.status == 403
  {
    Auth.VerifyTokenPassesIff(req, verify);
    var st := Auth.VerifyToken(req, verify);
    var rest := guards[1..];
    assert rest[0] == guards[1];
    var refusal := RunGuard(rest[0], st.req, body, verify, isDate);
    assert refusal.outcome.Respond? && refusal.outcome.reply.status == 403;
    assert RunGuards(rest, st.req, body, verify, isDate) == refusal;
  }

  /** Then the role: a verified token of the wrong role is 403 whatever the
      body. */
  lemma DispatchRoleBeforeBody(verb: Verb, path: seq<string>, req: Request, body: Validation.Fields,
                               verify: Verifier, isDate: string -> bool, k: nat)
    requires Resolve(verb, path) == Some(k)
    requires RoleGate(Routes[k]).Some?
    requires TokenClaims(req, verify).Some? && TokenClaims(req, verify).value.role != RoleGate(Routes[k]).value
    ensures Dispatch(verb, path, req, body, verify, isDate).Halted?
    ensures Dispatch(verb, path, req, body, verify, isDate).reply.status == 403
  {
    TableWellShaped(k);
    RoleRefusal(Routes[k].guards, req, body, verify, isDate);
  }

  /** So a 400 from a validator means the token and the role were accepted. */
  lemma DispatchBodyLast(verb: Verb, path: seq<string>, req: Request, body: Validation.Fields,
                         verify: Verifier, isDate: string -> bool, k: nat)
    requires Resolve(verb, path) == Some(k) && Routes[k].action != Migrate
    requires Dispatch(verb, path, req, body, verify, isDate).Halted?
    requires Dispatch(verb, path, req, body, verify, isDate).reply.status == 400
    ensures TokenClaims(req, verify).Some?
    ensures RoleGate(Routes[k]).Some? ==> TokenClaims(req, verify).value.role == RoleGate(Routes[k]).value
  {
    TableWellShaped(k);
    Auth.VerifyTokenPassesIff(req, verify);
    if TokenClaims(req, verify).None? {
      DispatchTokenFirst(verb, path, req, body, verify, isDate, k);
    } else if RoleGate(Routes[k]).Some? && TokenClaims(req, verify).value.role != RoleGate(Routes[k]).value {
      DispatchRoleBeforeBody(verb, path, req, body, verify, isDate, k);
    }
  }

  // ---- the migration route ----

  /** `GET /migrate` runs no guard at all, under any spelling of `migrate`
      and on `HEAD` too; since it is declared first, such a path never
      reaches `obtenir`, while every other single non-empty segment does,
      behind the token check alone. */
  lemma MigrateShadowsObtenir(verb: Verb, req: Request, body: Validation.Fields, verify: Verifier,
                              isDate: string -> bool, id: string)
    requires verb == Get || verb == Head
    ensures LowerText(id) == "migrate" ==> Dispatch(verb, [id], req, body, verify, isDate) == Reached(Migrate, req)
    ensures id != "" && LowerText(id) != "migrate" ==> Resolve(verb, [id]) == Some(3)
  {
    if LowerText(id) == "migrate" {
      assert LowerText("migrate") == "migrate";
      assert Matches(Routes[0], verb, [id]);
    } else if id != "" {
      assert LowerText("migrate") == "migrate";
      assert !SegmentMatches(Routes[0].pattern[0], [id][0]);
      assert !Matches(Routes[1], verb, [id]);
      assert !Matches(Routes[2], verb, [id]);
      assert Matches(Routes[3], verb, [id]);
    }
  }

  /** Two requests that every route matches alike resolve to the same route. */
  lemma SameMatchesSameRoute(v1: Verb, p1: seq<string>, v2: Verb, p2: seq<string>)
    requires forall j :: 0 <= j < |Routes| ==> (Matches(Routes[j], v1, p1) <==> Matches(Routes[j], v2, p2))
    ensures Resolve(v1, p1) == Resolve(v2, p2)
  {
    var k1, k2 := Resolve(v1, p1), Resolve(v2, p2);
    if k1.Some? {
      assert Matches(Routes[k1.value], v2, p2);
    }
    if k2.Some? {
      assert Matches(Routes[k2.value], v1, p1);
    }
  }

  lemma LowerTextIdempotent(s: string)
    ensures LowerText(LowerText(s)) == LowerText(s)
  {
  }

  /** Case never decides the route: a path resolves as its lower-case form
      does, so `GET /MIGRATE` is the migration and `POST /ENVOYER-DATE`
      the send-by-date. */
  lemma RoutingIgnoresCase(verb: Verb, path: seq<string>)
    ensures Resolve(verb, path) == Resolve(verb, LowerPath(path))
  {
    var low := LowerPath(path);
    forall j | 0 <= j < |Routes|
      ensures Matches(Routes[j], verb, path) <==> Matches(Routes[j], verb, low)
    {
      forall i | 0 <= i < |path| && i < |Routes[j].pattern|
        ensures SegmentMatches(Routes[j].pattern[i], path[i]) <==> SegmentMatches(Routes[j].pattern[i], low[i])
      {
        LowerTextIdempotent(path[i]);
      }
    }
    SameMatchesSameRoute(verb, path, verb, low);
  }

  /** A `HEAD` request goes where the same `GET` would: no route of the
      table is declared for `HEAD`. */
  lemma HeadIsGet(path: seq<string>)
    ensures Resolve(Head, path) == Resolve(Get, path)
  {
    SameMatchesSameRoute(Head, path, Get, path);
  }

  /** The secretary and driver action sets are disjoint, and no route demands
      both roles. */
  lemma RoleSetsDisjoint(k: nat)
    requires k < |Routes|
    ensures SecretaireActions !! ChauffeurActions
    ensures !(RequireSecretaire in Routes[k].guards && RequireChauffeur in Routes[k].guards)
  {
    TableWellShaped(k);
  }
}
