/** The token and role middleware of backend/src/middleware/auth.js: each
    middleware either answers or passes the (possibly enriched) request on. */
module Auth {
  import opened Base
  import opened Http

  const TokenMissing := "Token non fourni"
  const TokenInvalid := "Token invalide ou expiré"
  const ServerError := "Erreur serveur"
  const SecretaireOnly := "Accès réservé à la secrétaire"
  const ChauffeurOnly := "Accès réservé aux chauffeurs"

  /** `verifyToken`: the header must start with `Bearer `; the rest is handed to
      the verifier, whose claims become `req.user`. */
  function VerifyToken(req: Request, verify: Verifier): (r: Step)
    ensures r.outcome == Next || r.req == req
    ensures r.outcome.Next? || r.outcome == Respond(Reply(401, Error(TokenMissing)))
            || r.outcome == Respond(Reply(401, Error(TokenInvalid)))
  {
    if req.authorization.None? || !StartsWith(req.authorization.value, BearerPrefix) then
      Step(Respond(Reply(401, Error(TokenMissing))), req)
    else
      var token := req.authorization.value[7..];
      if token in verify then Step(Next, req.(user := Some(verify[token])))
      else Step(Respond(Reply(401, Error(TokenInvalid))), req)
  }

  /** Without a `Bearer ` header the answer is 401 "Token non fourni". */
  lemma VerifyTokenMissing(req: Request, verify: Verifier)
    requires req.authorization.None? || !StartsWith(req.authorization.value, BearerPrefix)
    ensures VerifyToken(req, verify) == Step(Respond(Reply(401, Error(TokenMissing))), req)
  {
  }

  /** The request passes exactly when its header is `"Bearer " + token` for a
      token the verifier accepts; `req.user` then holds that token's claims and
      nothing else of the request changes. Otherwise the request is untouched
      and the answer is 401 "Token invalide ou expiré". */
  lemma VerifyTokenSpec(req: Request, verify: Verifier, token: string)
    requires req.authorization == Some(BearerPrefix + token)
    ensures token in verify ==>
              VerifyToken(req, verify) == Step(Next, req.(user := Some(verify[token])))
    ensures token !in verify ==>
              VerifyToken(req, verify) == Step(Respond(Reply(401, Error(TokenInvalid))), req)
  {
    BearerShape(req.authorization.value, token);
  }

  /** Passing `verifyToken` is having a token that verifies. */
  lemma VerifyTokenPassesIff(req: Request, verify: Verifier)
    ensures VerifyToken(req, verify).outcome.Next? <==> TokenClaims(req, verify).Some?
    ensures VerifyToken(req, verify).outcome.Next? ==>
              VerifyToken(req, verify).req == req.(user := TokenClaims(req, verify))
  {
  }

  /** `requireSecretaire` / `requireChauffeur`: compare `req.user.role`. Reading
      the role of an absent `req.user` throws. */
  function RequireRole(req: Request, role: string, refusal: string): (r: Step)
    ensures r.req == req
    ensures req.user.None? <==> r.outcome.Throw?
  {
    if req.user.None? then Step(Throw, req)
    else if req.user.value.role != role then Step(Respond(Reply(403, Error(refusal))), req)
    else Step(Next, req)
  }

  function RequireSecretaire(req: Request): (r: Step)
    ensures r.req == req
  {
    RequireRole(req, Secretaire, SecretaireOnly)
  }

  function RequireChauffeur(req: Request): (r: Step)
    ensures r.req == req
  {
    RequireRole(req, Chauffeur, ChauffeurOnly)
  }

  /** A role guard passes iff the claims carry that role, and refuses an
      authenticated caller of any other role with 403. */
  lemma RequireSecretaireIff(req: Request)
    requires req.user.Some?
    ensures RequireSecretaire(req).outcome.Next? <==> req.user.value.role == Secretaire
    ensures !RequireSecretaire(req).outcome.Next? ==>
              RequireSecretaire(req).outcome == Respond(Reply(403, Error(SecretaireOnly)))
  {
  }

  lemma RequireChauffeurIff(req: Request)
    requires req.user.Some?
    ensures RequireChauffeur(req).outcome.Next? <==> req.user.value.role == Chauffeur
    ensures !RequireChauffeur(req).outcome.Next? ==>
              RequireChauffeur(req).outcome == Respond(Reply(403, Error(ChauffeurOnly)))
  {
  }

  /** No caller passes both role guards. */
  lemma RoleGuardsExclusive(req: Request)
    ensures !(RequireSecretaire(req).outcome.Next? && RequireChauffeur(req).outcome.Next?)
  {
  }

  /** The result of `findById` on a store: the record, `null` for an unknown or
      undefined id, or a failure of the store. */
  datatype Lookup = Found(profile: Profile) | NotFound | StoreFailure

  function FindById(store: map<int, Profile>, id: Option<int>, storeUp: bool): (l: Lookup)
    ensures !storeUp <==> l.StoreFailure?
    ensures l.Found? ==> id.Some? && id.value in store && l.profile == store[id.value]
  {
    if !storeUp then StoreFailure
    else if id.Some? && id.value in store then Found(store[id.value])
    else NotFound
  }

  /** `loadUserData`: a secretary is looked up among the users, a driver among
      the drivers, by `req.user.userId`; `req.userData` is the record or null.
      Any failure, including an absent `req.user`, is answered with 500. */
  function LoadUserData(req: Request, utilisateurs: map<int, Profile>,
                        chauffeurs: map<int, Profile>, storeUp: bool): (r: Step)
    ensures r.outcome.Next? || r.outcome == Respond(Reply(500, Error(ServerError)))
    ensures r.req.authorization == req.authorization && r.req.user == req.user
  {
    if req.user.None? then Step(Respond(Reply(500, Error(ServerError))), req)
    else if req.user.value.role == Secretaire || req.user.value.role == Chauffeur then
      var store := if req.user.value.role == Secretaire then utilisateurs else chauffeurs;
      match FindById(store, req.user.value.userId, storeUp)
      case StoreFailure => Step(Respond(Reply(500, Error(ServerError))), req)
      case NotFound => Step(Next, req.(userData := None))
      case Found(p) => Step(Next, req.(userData := Some(p)))
    else Step(Next, req)
  }

  /** A secretary's `userData` comes from the user store and a driver's from the
      driver store; for any other role nothing is loaded and `next` is still
      called, whatever the stores hold. */
  lemma LoadUserDataStores(req: Request, utilisateurs: map<int, Profile>,
                           chauffeurs: map<int, Profile>, storeUp: bool)
    requires req.user.Some?
    ensures var r := LoadUserData(req, utilisateurs, chauffeurs, storeUp);
      var id := req.user.value.userId;
      (req.user.value.role == Secretaire && storeUp ==>
         r.outcome.Next? &&
         r.req.userData == (if id.Some? && id.value in utilisateurs then Some(utilisateurs[id.value]) else None))
      && (req.user.value.role == Chauffeur && storeUp ==>
         r.outcome.Next? &&
         r.req.userData == (if id.Some? && id.value in chauffeurs then Some(chauffeurs[id.value]) else None))
      && (req.user.value.role != Secretaire && req.user.value.role != Chauffeur ==> r == Step(Next, req))
  {
  }
}
